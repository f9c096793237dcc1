/** A whole client: any number of sessions, the server session pool, the tasks that finish dropped
    sessions, and the shared token bucket, stepping in any interleaving
    (driver/src/client/session.rs:231-257, 406-451; driver/src/client.rs:439-457, 785-822;
    driver/src/client/executor.rs:451-612).
 */
module Clients {
  import opened Wrappers
  import opened Machines
  import opened Errors
  import opened Sessions
  import opened Executor
  import opened Protocol
  import opened SessionPool
  import opened TokenBucket

  /** Who holds a server session outside the pool: a session the application or an operation uses,
      a background task that aborts the transaction of a dropped session, or one that returns it. */
  datatype Owner = Live(state: State) | Aborting(state: State) | Returning(server: ServerSession)

  type OwnerId = nat

  datatype Client = Client(pool: seq<ServerSession>, owners: map<OwnerId, Owner>, issued: set<Lsid>,
                           tokens: Option<nat>)

  /** A client right after it was created. */
  function NewClient(adaptiveRetries: bool): Client {
    Client([], map[], {}, if adaptiveRetries then Some(MAX_BUCKET_CAPACITY) else None)
  }

  /** `uuid` is the id a new server session gets if the pool has none to offer. */
  datatype ClientAction =
    | Open(owner: OwnerId, implicit: bool, expiring: set<Lsid>, uuid: Lsid)
    | Act(owner: OwnerId, action: Action)
    | Drop(owner: OwnerId)
    | CheckIn(owner: OwnerId, expiring: set<Lsid>)
    | Lose(owner: OwnerId)

  datatype ClientEvent =
    | Observed(event: Event)
    | Admitted
    | Denied
    | Succeeded(isRetry: bool)
    | RetryFailed

  function ServerOf(o: Owner): ServerSession {
    match o
    case Live(st) => st.session.server
    case Aborting(st) => st.session.server
    case Returning(server) => server
  }

  // ---------------------------------------------------------------------
  // The bucket's part in a step
  // ---------------------------------------------------------------------

  /** What a step of the executor does to the bucket. */
  function BucketEffect(cfg: Config, st: State, a: Action): BucketOp {
    if !Enabled(st, a) then Nothing
    else
      match a
      case Select(_) =>
        var retry := st.phase.run.retry;
        if retry.Some? && retry.value.attempt <= retry.value.maxRetries && retry.value.overloaded then Consume
        else Nothing
      case Build(input) =>
        if input.Unbuildable? then FailureEffect(st.phase.run, input.error)
        else if !st.phase.run.op.supportsSessions && !st.session.implicit then
          FailureEffect(st.phase.run, UNSUPPORTED_SESSION)
        else if input.Unsendable? then FailureEffect(st.phase.run, input.error)
        else Nothing
      case Answer(input) =>
        var p := Interpret(st.session, st.phase.run, st.phase.attempt, input);
        if p.error.None? then DepositSuccess(st.phase.run.retry.Some?)
        else if !IsReauthenticationRequired(p.error.value) then FailureEffect(st.phase.run, p.error.value)
        else if input.reauthenticationError.Some? then FailureEffect(st.phase.run, input.reauthenticationError.value)
        else Nothing
      case _ => Nothing
  }

  function FailureEffect(run: Run, e: Error): BucketOp {
    if run.retry.Some? && !Overloaded(e) then DepositRetryError else Nothing
  }

  /** The bucket, not the environment, answers the executor's question. */
  function WithAnswer(a: Action, granted: bool): Action {
    match a
    case Select(SelectionFailed(_, error)) => Select(SelectionFailed(granted, error))
    case Select(Selected(_, candidate, connecting)) => Select(Selected(granted, candidate, connecting))
    case _ => a
  }

  function BucketEvents(tokens: Option<nat>, op: BucketOp): seq<ClientEvent> {
    match op
    case Nothing => []
    case Consume => [if Admits(tokens) then Admitted else Denied]
    case DepositSuccess(isRetry) => [Succeeded(isRetry)]
    case DepositRetryError => [RetryFailed]
  }

  // ---------------------------------------------------------------------
  // Steps
  // ---------------------------------------------------------------------

  /** Task sessions only ever abort. */
  predicate TaskAction(a: Action) { a.AbortCall? || a.Select? || a.Build? || a.Answer? }

  function Dropped(st: State): Owner {
    if st.session.transaction.state.InProgress? then Aborting(State(st.session, Idle)) else Returning(st.session.server)
  }

  function Observe(events: seq<Event>): seq<ClientEvent> {
    seq(|events|, i requires 0 <= i < |events| => Observed(events[i]))
  }

  function Replaced(c: Client, owner: OwnerId, st: State, tokens: Option<nat>): Client
    requires owner in c.owners && !c.owners[owner].Returning?
  {
    c.(owners := c.owners[owner := c.owners[owner].(state := st)], tokens := tokens)
  }

  /** The client after a session's step and its effect on the bucket. */
  function Applied(c: Client, owner: OwnerId, step: Outcome<State, Event>, effect: BucketOp)
    : Outcome<Client, ClientEvent>
    requires owner in c.owners && !c.owners[owner].Returning?
  {
    Outcome(Replaced(c, owner, step.state, TokensAfter(c.tokens, effect)),
            BucketEvents(c.tokens, effect) + Observe(step.events))
  }

  function ActOn(cfg: Config, c: Client, owner: OwnerId, a: Action): Outcome<Client, ClientEvent>
    requires owner in c.owners && !c.owners[owner].Returning?
  {
    var st := c.owners[owner].state;
    Applied(c, owner, Step(cfg, st, WithAnswer(a, Admits(c.tokens))), BucketEffect(cfg, st, a))
  }

  function ClientStep(cfg: Config, c: Client, a: ClientAction): Outcome<Client, ClientEvent> {
    match a
    case Open(owner, implicit, expiring, uuid) =>
      if owner in c.owners || uuid in c.issued then Outcome(c, [])
      else
        var server := CheckedOut(c.pool, expiring, uuid);
        Outcome(
          c.(pool := PoolAfterCheckOut(c.pool, expiring),
             owners := c.owners[owner := Live(State(NewSession(server, implicit), Idle))],
             issued := c.issued + {server.id}),
          [])
    case Act(owner, action) =>
      if owner !in c.owners then Outcome(c, [])
      else if c.owners[owner].Live? || (c.owners[owner].Aborting? && TaskAction(action)) then
        ActOn(cfg, c, owner, action)
      else Outcome(c, [])
    case Drop(owner) =>
      if owner !in c.owners || c.owners[owner].Returning? then Outcome(c, [])
      else Outcome(c.(owners := c.owners[owner := Dropped(c.owners[owner].state)]), [])
    case CheckIn(owner, expiring) =>
      if owner !in c.owners || !c.owners[owner].Returning? then Outcome(c, [])
      else
        var pool := PoolAfterCheckIn(c.pool, expiring, c.owners[owner].server);
        Outcome(c.(pool := pool, owners := c.owners - {owner}), [])
    case Lose(owner) =>
      if owner !in c.owners || !c.owners[owner].Returning? then Outcome(c, [])
      else Outcome(c.(owners := c.owners - {owner}), [])
  }

  function ClientStepper(cfg: Config): (Client, ClientAction) -> Outcome<Client, ClientEvent> {
    (c, a) => ClientStep(cfg, c, a)
  }

  function RunClient(cfg: Config, c: Client, actions: seq<ClientAction>): Outcome<Client, ClientEvent> {
    Fold(ClientStepper(cfg), c, actions)
  }

  // ---------------------------------------------------------------------
  // One owner for each session id
  // ---------------------------------------------------------------------

  /** No server session id is held twice: not in two places of the pool, not by two owners, not by
      the pool and an owner. */
  predicate OneOwner(c: Client) {
    && (forall i, j | 0 <= i < j < |c.pool| :: c.pool[i].id != c.pool[j].id)
    && (forall o, o' | o in c.owners && o' in c.owners && o != o' ::
          ServerOf(c.owners[o]).id != ServerOf(c.owners[o']).id)
    && (forall i, o | 0 <= i < |c.pool| && o in c.owners :: c.pool[i].id != ServerOf(c.owners[o]).id)
  }

  predicate AllIssued(c: Client) {
    && (forall i | 0 <= i < |c.pool| :: c.pool[i].id in c.issued)
    && (forall o | o in c.owners :: ServerOf(c.owners[o]).id in c.issued)
  }

  // ---------------------------------------------------------------------
  // Numbers never come back
  // ---------------------------------------------------------------------

  datatype Pair = Pair(lsid: Lsid, number: int)

  /** The session id and number an event uses, if it uses one. */
  function Used(e: ClientEvent): Option<Pair> {
    if !e.Observed? then None else UsedBy(e.event)
  }

  function UsedBy(e: Event): Option<Pair> {
    match e
    case WriteNumbered(lsid, number, _) => Some(Pair(lsid, number))
    case TransactionStarted(lsid, number) => Some(Pair(lsid, number))
    case CommandBuilt(c, _) =>
      if c.lsid.Some? && c.txnNumber.Some? then Some(Pair(c.lsid.value, c.txnNumber.value)) else None
    case _ => None
  }

  /** The event hands out its number, to a retryable write or to a transaction. */
  predicate Assigns(e: ClientEvent) { e.Observed? && (e.event.WriteNumbered? || e.event.TransactionStarted?) }

  /** Whoever holds a session that used a number stands at that number or beyond. */
  predicate NoneAhead(c: Client, e: ClientEvent) {
    Used(e).Some? ==>
      var Pair(l, n) := Used(e).value;
      && l in c.issued
      && (forall i | 0 <= i < |c.pool| && c.pool[i].id == l :: n <= c.pool[i].txnNumber)
      && (forall o | o in c.owners && ServerOf(c.owners[o]).id == l :: n <= ServerOf(c.owners[o]).txnNumber)
  }

  ghost predicate Sound(cfg: Config, st: State) { exists m: Monitor :: Inv(cfg, st, m) }

  ghost predicate AllSound(cfg: Config, c: Client) {
    forall o | o in c.owners && !c.owners[o].Returning? :: Sound(cfg, c.owners[o].state)
  }

  /** No session that met a network error waits in the pool. */
  predicate PoolIsClean(c: Client) { forall i | 0 <= i < |c.pool| :: !c.pool[i].dirty }

  ghost predicate ClientInv(cfg: Config, c: Client, log: seq<ClientEvent>) {
    && OneOwner(c)
    && AllIssued(c)
    && PoolIsClean(c)
    && AllSound(cfg, c)
    && (forall i | 0 <= i < |log| :: NoneAhead(c, log[i]))
    && (c.tokens.Some? ==> c.tokens.value <= MAX_BUCKET_CAPACITY)
  }

  /** Every later assignment of a number is above every earlier use of that session's numbers. */
  predicate FreshNumbers(log: seq<ClientEvent>) {
    forall i, j | 0 <= i < j < |log| :: Above(log[i], log[j])
  }

  predicate Above(e: ClientEvent, later: ClientEvent) {
    && Used(e).Some?
    && Assigns(later)
    && Used(e).value.lsid == Used(later).value.lsid
    ==> Used(e).value.number < Used(later).value.number
  }

  // ---------------------------------------------------------------------
  // Steps of one session, as far as numbers go
  // ---------------------------------------------------------------------

  /** A step keeps its session's id, never lowers its number, uses numbers in at most one event,
      uses none beyond the new one and hands out none that is not beyond the old one. */
  predicate NumberStep(st: State, o: Outcome<State, Event>) {
    && o.state.session.server.id == st.session.server.id
    && o.state.session.server.txnNumber >= st.session.server.txnNumber
    && (forall i | 0 <= i < |o.events| && UsedBy(o.events[i]).Some? ::
          && UsedBy(o.events[i]).value.lsid == st.session.server.id
          && UsedBy(o.events[i]).value.number <= o.state.session.server.txnNumber)
    && (forall i | 0 <= i < |o.events| && Assigns(Observed(o.events[i])) ::
          o.events[i].number > st.session.server.txnNumber)
    && (forall i, j | 0 <= i < j < |o.events| :: !(Numbered(o.events[i]) && Numbered(o.events[j])))
  }

  predicate Numbered(e: Event) { e.WriteNumbered? || e.TransactionStarted? || e.CommandBuilt? }

  predicate Unnumbered(events: seq<Event>) { forall i | 0 <= i < |events| :: !Numbered(events[i]) }

  predicate SameNumber(s: Session, s': Session) {
    s'.server.id == s.server.id && s'.server.txnNumber == s.server.txnNumber
  }

  /** Nothing is numbered and the session's number stays. */
  predicate Quiet(s: Session, o: Outcome<State, Event>) {
    Unnumbered(o.events) && SameNumber(s, o.state.session)
  }

  lemma RetryOrFinishIsQuiet(cfg: Config, s: Session, run: Run, e: Error, isTransactionOp: bool, n: Option<int>,
                             events: seq<Event>)
    requires Unnumbered(events)
    ensures Quiet(s, RetryOrFinish(cfg, s, run, e, isTransactionOp, n, events))
    ensures Quiet(s, Finish(s, run.op, events))
  {
  }

  lemma QuietIsFine(st: State, o: Outcome<State, Event>)
    requires Quiet(st.session, o)
    ensures NumberStep(st, o)
  {
  }

  lemma BeginIsQuiet(s: Session, op: Op, valid: bool, events: seq<Event>)
    requires Unnumbered(events)
    ensures Quiet(s, Begin(s, op, valid, events))
  {
  }

  lemma StepNumbers(cfg: Config, st: State, a: Action)
    requires Sound(cfg, st)
    ensures Sound(cfg, Step(cfg, st, a).state)
    ensures NumberStep(st, Step(cfg, st, a))
  {
    var m :| Inv(cfg, st, m);
    StepIsGood(cfg, m, st, a);
    assert Sound(cfg, Step(cfg, st, a).state);
    if Enabled(st, a) {
      match a {
        case Select(input) => SelectNumbers(cfg, st.session, st.phase.run, input);
        case Build(input) => BuildNumbers(cfg, st, input, m);
        case Answer(input) => AnswerNumbers(cfg, st.session, st.phase.run, st.phase.attempt, input);
        case Cancel => QuietIsFine(st, Step(cfg, st, a));
        case _ => CallNumbers(cfg, st, a);
      }
    }
  }

  lemma CallNumbers(cfg: Config, st: State, a: Action)
    requires Enabled(st, a) && st.phase.Idle?
    ensures NumberStep(st, Step(cfg, st, a))
  {
    var s := st.session;
    match a {
      case StartCall(supported, options) => StartNumbers(s, supported, options);
      case CommitCall(id, valid) =>
        if s.transaction.state.InProgress? {
          BeginIsQuiet(s.(transaction := CommittedAs(s.transaction, true)), CommitOp(id), valid,
                       [TransactionCommitted]);
        }
        BeginIsQuiet(s, CommitOp(id), valid, []);
        QuietIsFine(st, CommitTransaction(s, id, valid));
      case AbortCall(id, valid) =>
        BeginIsQuiet(s.(transaction := AbortedFrom(s.transaction)), AbortOp(id, s.transaction.pinned), valid,
                     [TransactionAborted]);
        QuietIsFine(st, AbortTransaction(s, id, valid));
      case OperationCall(op, valid) =>
        BeginIsQuiet(s, op, valid, []);
        QuietIsFine(st, Begin(s, op, valid, []));
      case _ => QuietIsFine(st, Step(cfg, st, a));
    }
  }

  lemma StartNumbers(s: Session, supported: bool, options: Option<TransactionOptions>)
    ensures NumberStep(State(s, Idle), StartTransaction(s, supported, options))
  {
  }

  lemma SelectNumbers(cfg: Config, s: Session, run: Run, input: SelectInput)
    ensures NumberStep(State(s, Selecting(run)), StepSelecting(cfg, s, run, input))
  {
    var st := State(s, Selecting(run));
    var overloaded := run.retry.Some? && run.retry.value.overloaded;
    var run' := if run.retry.Some? then run.(op := UpdatedForRetry(run.op)) else run;
    var o := StepSelecting(cfg, s, run, input);
    if o == Finish(s, run.op, []) || o == Finish(s, run'.op, []) {
      QuietIsFine(st, o);
    } else if input.SelectionFailed? {
      var e := Labelled(input.error, NotRetryable, s.transaction.state);
      assert o == Finish(AfterError(s, e), run'.op, [Unselected(run'.op.id, e)]);
      QuietIsFine(st, o);
    } else if input.connecting.ConnectFailed? {
      var e := Labelled(input.connecting.error, run'.op.retryability, s.transaction.state);
      RetryOrFinishIsQuiet(cfg, AfterError(s, e), run', e, InTransaction(s) && !IsCommitOrAbort(run'.op), None,
                           [Failed(run'.op.id, e)]);
      QuietIsFine(st, o);
    } else {
      var c := input.connecting;
      assert o == StepConnected(s, run', Target(s, run', input.candidate), c.id, c.isMongos, c.retryableWrites,
                                overloaded);
      ConnectedNumbers(s, run', Target(s, run', input.candidate), c.id, c.isMongos, c.retryableWrites, overloaded);
    }
  }

  lemma ConnectedNumbers(s: Session, run: Run, address: Address, id: ConnectionId, isMongos: bool,
                         retryableWrites: bool, overloaded: bool)
    ensures NumberStep(State(s, Selecting(run)),
                       StepConnected(s, run, address, id, isMongos, retryableWrites, overloaded))
  {
  }

  lemma BuildNumbers(cfg: Config, st: State, input: BuildInput, m: Monitor)
    requires Inv(cfg, st, m) && st.phase.Building?
    ensures NumberStep(st, StepBuilding(cfg, st.session, st.phase.run, st.phase.attempt, input))
  {
    var s, run, a := st.session, st.phase.run, st.phase.attempt;
    var o := StepBuilding(cfg, s, run, a, input);
    if input.Unbuildable? {
      RetryOrFinishIsQuiet(cfg, s, run, input.error, a.isTransactionOp, a.txnNumber, []);
      QuietIsFine(st, o);
    } else if !run.op.supportsSessions && !s.implicit {
      RetryOrFinishIsQuiet(cfg, s, run, UNSUPPORTED_SESSION, a.isTransactionOp, a.txnNumber, []);
      QuietIsFine(st, o);
    } else {
      var c := BuiltCommand(s, run.op, a, input.clientTime);
      assert c.lsid.Some? && c.txnNumber.Some? ==>
          c.lsid.value == s.server.id && c.txnNumber.value == s.server.txnNumber;
      assert o.events[0] == CommandBuilt(c, input.Transmit?) && Unnumbered(o.events[1..]);
      assert o.state.session.server == s.server;
      OneNumbered(st, o);
    }
  }

  lemma OneNumbered(st: State, o: Outcome<State, Event>)
    requires o.state.session.server == st.session.server
    requires o.events != [] && o.events[0].CommandBuilt? && Unnumbered(o.events[1..])
    requires var u := UsedBy(o.events[0]);
             u.Some? ==> u.value.lsid == st.session.server.id && u.value.number <= st.session.server.txnNumber
    ensures NumberStep(st, o)
  {
    forall i | 0 < i < |o.events| ensures !Numbered(o.events[i]) { assert o.events[i] == o.events[1..][i-1]; }
  }

  lemma AnswerNumbers(cfg: Config, s: Session, run: Run, a: Attempt, input: ReplyInput)
    ensures NumberStep(State(s, Waiting(run, a)), StepWaiting(cfg, s, run, a, input))
  {
    InterpretUnnumbered(s, run, a, input);
    var p := Interpret(s, run, a, input);
    var o := StepWaiting(cfg, s, run, a, input);
    if p.error.None? {
      assert o == Finish(p.session, run.op, p.events);
      assert Quiet(s, o);
    } else if !IsReauthenticationRequired(p.error.value) {
      RetryOrFinishIsQuiet(cfg, p.session, run, p.error.value, a.isTransactionOp, a.txnNumber, p.events);
    } else if input.reauthenticationError.Some? {
      RetryOrFinishIsQuiet(cfg, p.session, run, input.reauthenticationError.value, a.isTransactionOp, a.txnNumber,
                           p.events);
    } else {
      assert o.events == p.events + [Reauthenticated(run.op.id)];
      assert Quiet(s, o);
    }
    QuietIsFine(State(s, Waiting(run, a)), o);
  }

  lemma InterpretUnnumbered(s: Session, run: Run, a: Attempt, input: ReplyInput)
    ensures var p := Interpret(s, run, a, input);
            Unnumbered(p.events) && SameNumber(s, p.session)
  {
    if input.received.Replied? { ParseUnnumbered(s, a.conn.isMongos, input.received.reply); }
    var p := Receive(s, a.conn.isMongos, input.received);
    assert Unnumbered(p.events);
  }

  lemma ParseUnnumbered(s: Session, isMongos: bool, reply: Reply)
    ensures var p := ParseReply(s, isMongos, reply);
            Unnumbered(p.events) && SameNumber(s, p.session)
  {
  }

  // ---------------------------------------------------------------------
  // The invariant of a client
  // ---------------------------------------------------------------------

  /** `c'` holds the same ids as `c`, or some of them, at the same numbers or beyond. */
  predicate OnlyAdvances(c: Client, c': Client) {
    && c.issued <= c'.issued
    && (forall i | 0 <= i < |c'.pool| :: Covers(c, c'.pool[i]) || c'.pool[i].id !in c.issued)
    && (forall o | o in c'.owners :: Covers(c, ServerOf(c'.owners[o])) || ServerOf(c'.owners[o]).id !in c.issued)
  }

  /** Some holder in `c` has this id, at this number or an earlier one. */
  predicate Covers(c: Client, s: ServerSession) {
    || (exists i :: 0 <= i < |c.pool| && c.pool[i].id == s.id && c.pool[i].txnNumber <= s.txnNumber)
    || (exists o :: o in c.owners && ServerOf(c.owners[o]).id == s.id && ServerOf(c.owners[o]).txnNumber <= s.txnNumber)
  }

  lemma AdvancingKeepsNoneAhead(c: Client, c': Client, e: ClientEvent)
    requires NoneAhead(c, e) && OnlyAdvances(c, c')
    ensures NoneAhead(c', e)
  {
  }

  /** The invariant, once ownership is settled and no session went back. */
  lemma AdvancingKeepsInv(cfg: Config, c: Client, c': Client, log: seq<ClientEvent>)
    requires ClientInv(cfg, c, log) && OnlyAdvances(c, c')
    requires OneOwner(c') && AllIssued(c') && PoolIsClean(c') && AllSound(cfg, c') && c'.tokens == c.tokens
    ensures ClientInv(cfg, c', log)
  {
    forall i | 0 <= i < |log| ensures NoneAhead(c', log[i]) { AdvancingKeepsNoneAhead(c, c', log[i]); }
  }

  /** A new session holds what it got from the pool, or an id that nobody had. */
  lemma OpenKeepsOwners(c: Client, a: ClientAction, c': Client)
    requires OneOwner(c) && AllIssued(c) && a.Open? && a.owner !in c.owners && a.uuid !in c.issued
    requires var server := CheckedOut(c.pool, a.expiring, a.uuid);
             && c'.pool == PoolAfterCheckOut(c.pool, a.expiring)
             && c'.owners == c.owners[a.owner := Live(State(NewSession(server, a.implicit), Idle))]
             && c'.issued == c.issued + {server.id}
    ensures OneOwner(c') && AllIssued(c')
  {
    var n := Skipped(c.pool, a.expiring);
    forall i | 0 <= i < |c'.pool| ensures c'.pool[i] == c.pool[n + 1 + i] { }
  }

  lemma OpenAdvances(c: Client, a: ClientAction, c': Client)
    requires a.Open? && a.owner !in c.owners && a.uuid !in c.issued
    requires var server := CheckedOut(c.pool, a.expiring, a.uuid);
             && c'.pool == PoolAfterCheckOut(c.pool, a.expiring)
             && c'.owners == c.owners[a.owner := Live(State(NewSession(server, a.implicit), Idle))]
             && c'.issued == c.issued + {server.id}
    ensures OnlyAdvances(c, c')
  {
    var n := Skipped(c.pool, a.expiring);
    forall i | 0 <= i < |c'.pool| ensures Covers(c, c'.pool[i]) { assert c.pool[n + 1 + i] == c'.pool[i]; }
    forall o | o in c'.owners
      ensures Covers(c, ServerOf(c'.owners[o])) || ServerOf(c'.owners[o]).id !in c.issued
    {
      if o == a.owner {
        if n < |c.pool| { assert c.pool[n] == ServerOf(c'.owners[o]); }
      } else {
        assert o in c.owners;
      }
    }
  }

  lemma OpenIsGood(cfg: Config, c: Client, log: seq<ClientEvent>, a: ClientAction)
    requires ClientInv(cfg, c, log) && a.Open?
    ensures ClientInv(cfg, ClientStep(cfg, c, a).state, log)
  {
    if a.owner !in c.owners && a.uuid !in c.issued {
      var c' := ClientStep(cfg, c, a).state;
      var server := CheckedOut(c.pool, a.expiring, a.uuid);
      OpenKeepsOwners(c, a, c');
      OpenAdvances(c, a, c');
      NewSessionsAreMirrored(cfg, server, a.implicit);
      AdvancingKeepsInv(cfg, c, c', log);
    }
  }

  /** A dropped session keeps its server session. */
  lemma HandingOnKeepsOwners(c: Client, c': Client, owner: OwnerId)
    requires OneOwner(c) && AllIssued(c) && owner in c.owners
    requires c'.pool == c.pool && c'.issued == c.issued && c'.owners.Keys == c.owners.Keys
    requires forall o | o in c.owners :: ServerOf(c'.owners[o]) == ServerOf(c.owners[o])
    ensures OneOwner(c') && AllIssued(c') && OnlyAdvances(c, c')
  {
    forall i | 0 <= i < |c'.pool| ensures Covers(c, c'.pool[i]) { assert c.pool[i] == c'.pool[i]; }
    forall o | o in c'.owners ensures Covers(c, ServerOf(c'.owners[o])) { assert o in c.owners; }
  }

  lemma DropIsSound(cfg: Config, st: State)
    requires Sound(cfg, st)
    ensures Sound(cfg, State(st.session, Idle))
  {
    var m :| Inv(cfg, st, m);
    assert Inv(cfg, State(st.session, Idle), m.(active := None));
  }

  lemma DropKeepsSound(cfg: Config, c: Client, owner: OwnerId, dropped: Owner, c': Client)
    requires AllSound(cfg, c) && owner in c.owners && !c.owners[owner].Returning?
    requires dropped == Dropped(c.owners[owner].state) && c'.owners == c.owners[owner := dropped]
    ensures AllSound(cfg, c')
    ensures forall o | o in c.owners :: ServerOf(c'.owners[o]) == ServerOf(c.owners[o])
  {
    DropIsSound(cfg, c.owners[owner].state);
  }

  lemma DropIsGood(cfg: Config, c: Client, log: seq<ClientEvent>, a: ClientAction)
    requires ClientInv(cfg, c, log) && a.Drop?
    ensures ClientInv(cfg, ClientStep(cfg, c, a).state, log)
  {
    if a.owner in c.owners && !c.owners[a.owner].Returning? {
      var c' := ClientStep(cfg, c, a).state;
      DropKeepsSound(cfg, c, a.owner, Dropped(c.owners[a.owner].state), c');
      HandingOnKeepsOwners(c, c', a.owner);
      AdvancingKeepsInv(cfg, c, c', log);
    }
  }

  /** A pool after a check-in holds what it held, or some of it, and the session that came back. */
  lemma ReturnKeepsOwners(c: Client, c': Client, owner: OwnerId)
    requires OneOwner(c) && AllIssued(c) && owner in c.owners && c.owners[owner].Returning?
    requires c'.owners == c.owners - {owner} && c'.issued == c.issued
    requires c'.pool == c.pool || c'.pool == [] || c'.pool == [c.owners[owner].server] + c.pool
    ensures OneOwner(c') && AllIssued(c') && OnlyAdvances(c, c')
  {
    var server := c.owners[owner].server;
    assert ServerOf(c.owners[owner]) == server;
    forall i | 0 <= i < |c'.pool| ensures Covers(c, c'.pool[i]) {
      if c'.pool == c.pool { assert c.pool[i] == c'.pool[i]; }
      else if i > 0 { assert c.pool[i - 1] == c'.pool[i]; }
    }
    forall o | o in c'.owners ensures Covers(c, ServerOf(c'.owners[o])) { assert o in c.owners; }
    if c'.pool == [server] + c.pool {
      assert forall i | 0 < i < |c'.pool| :: c'.pool[i] == c.pool[i - 1];
    }
  }

  lemma ReturnIsGood(cfg: Config, c: Client, log: seq<ClientEvent>, a: ClientAction)
    requires ClientInv(cfg, c, log) && (a.CheckIn? || a.Lose?)
    ensures ClientInv(cfg, ClientStep(cfg, c, a).state, log)
  {
    if a.owner in c.owners && c.owners[a.owner].Returning? {
      var c' := ClientStep(cfg, c, a).state;
      ReturnKeepsOwners(c, c', a.owner);
      assert PoolIsClean(c');
      AdvancingKeepsInv(cfg, c, c', log);
    }
  }

  /** What a session's step leaves behind fits the client's log. */
  ghost predicate Fits(cfg: Config, log: seq<ClientEvent>, o: Outcome<Client, ClientEvent>) {
    && ClientInv(cfg, o.state, log)
    && (forall i | 0 <= i < |o.events| :: NoneAhead(o.state, o.events[i]))
    && (forall i, j | 0 <= i < |log| && 0 <= j < |o.events| :: Above(log[i], o.events[j]))
    && FreshNumbers(o.events)
  }

  lemma ActIsGood(cfg: Config, c: Client, log: seq<ClientEvent>, owner: OwnerId, a: Action)
    requires ClientInv(cfg, c, log)
    requires owner in c.owners && !c.owners[owner].Returning?
    ensures Fits(cfg, log, ActOn(cfg, c, owner, a))
  {
    var st := c.owners[owner].state;
    var a' := WithAnswer(a, Admits(c.tokens));
    StepNumbers(cfg, st, a');
    AppliedIsGood(cfg, c, log, owner, Step(cfg, st, a'), BucketEffect(cfg, st, a));
  }

  lemma AppliedIsGood(cfg: Config, c: Client, log: seq<ClientEvent>, owner: OwnerId, step: Outcome<State, Event>,
                      effect: BucketOp)
    requires ClientInv(cfg, c, log)
    requires owner in c.owners && !c.owners[owner].Returning?
    requires NumberStep(c.owners[owner].state, step) && Sound(cfg, step.state)
    ensures Fits(cfg, log, Applied(c, owner, step, effect))
  {
    var tokens, bucket := TokensAfter(c.tokens, effect), BucketEvents(c.tokens, effect);
    ActState(cfg, c, log, owner, step, tokens);
    ActEvents(c, Replaced(c, owner, step.state, tokens), log, owner, step, c.owners[owner].state,
              bucket + Observe(step.events), |bucket|);
  }

  lemma ActState(cfg: Config, c: Client, log: seq<ClientEvent>, owner: OwnerId, step: Outcome<State, Event>,
                 tokens: Option<nat>)
    requires ClientInv(cfg, c, log)
    requires owner in c.owners && !c.owners[owner].Returning?
    requires NumberStep(c.owners[owner].state, step) && Sound(cfg, step.state)
    requires tokens.Some? ==> tokens.value <= MAX_BUCKET_CAPACITY
    ensures ClientInv(cfg, Replaced(c, owner, step.state, tokens), log)
  {
    var c' := Replaced(c, owner, step.state, tokens);
    assert ServerOf(c.owners[owner]).id == ServerOf(c'.owners[owner]).id;
    forall x | x in c'.owners ensures Covers(c, ServerOf(c'.owners[x])) {
      assert x in c.owners;
    }
    forall i | 0 <= i < |c'.pool| ensures Covers(c, c'.pool[i]) { }
    forall i | 0 <= i < |log| ensures NoneAhead(c', log[i]) { AdvancingKeepsNoneAhead(c, c', log[i]); }
  }

  lemma ActEvents(c: Client, c': Client, log: seq<ClientEvent>, owner: OwnerId, step: Outcome<State, Event>, st: State,
                  events: seq<ClientEvent>, k: nat)
    requires OneOwner(c') && AllIssued(c')
    requires owner in c.owners && ServerOf(c.owners[owner]) == st.session.server
    requires owner in c'.owners && ServerOf(c'.owners[owner]) == step.state.session.server
    requires NumberStep(st, step)
    requires forall i | 0 <= i < |log| :: NoneAhead(c, log[i])
    requires |events| == |step.events| + k
    requires forall i | 0 <= i < |events| ::
               if i < k then Used(events[i]).None? && !Assigns(events[i]) else events[i] == Observed(step.events[i - k])
    ensures forall i | 0 <= i < |events| :: NoneAhead(c', events[i])
    ensures forall i, j | 0 <= i < |log| && 0 <= j < |events| :: Above(log[i], events[j])
    ensures FreshNumbers(events)
  {
    forall i | 0 <= i < |events| ensures NoneAhead(c', events[i]) {
      if i >= k { assert events[i] == Observed(step.events[i - k]); }
    }
    forall i, j | 0 <= i < |log| && 0 <= j < |events| ensures Above(log[i], events[j]) {
      assert NoneAhead(c, log[i]);
      if j >= k { assert events[j] == Observed(step.events[j - k]); }
    }
    forall i, j | 0 <= i < j < |events| ensures Above(events[i], events[j]) {
      if i >= k { assert events[i] == Observed(step.events[i - k]) && events[j] == Observed(step.events[j - k]); }
    }
  }

  lemma ClientStepIsGood(cfg: Config, c: Client, log: seq<ClientEvent>, a: ClientAction)
    requires ClientInv(cfg, c, log) && FreshNumbers(log)
    ensures var o := ClientStep(cfg, c, a);
            ClientInv(cfg, o.state, log + o.events) && FreshNumbers(log + o.events)
  {
    var o := ClientStep(cfg, c, a);
    if o.events == [] { assert log + o.events == log; }
    match a {
      case Open(_, _, _, _) => OpenIsGood(cfg, c, log, a);
      case Drop(_) => DropIsGood(cfg, c, log, a);
      case CheckIn(_, _) => ReturnIsGood(cfg, c, log, a);
      case Lose(_) => ReturnIsGood(cfg, c, log, a);
      case Act(owner, action) =>
        if owner in c.owners && (c.owners[owner].Live? || (c.owners[owner].Aborting? && TaskAction(action))) {
          ActIsGood(cfg, c, log, owner, action);
          var all := log + o.events;
          forall i, j | 0 <= i < j < |all| ensures Above(all[i], all[j]) {
            if j < |log| { assert Above(log[i], log[j]); }
            else if i < |log| { assert Above(log[i], o.events[j - |log|]); }
            else { assert Above(o.events[i - |log|], o.events[j - |log|]); }
          }
        }
    }
  }

  /** In every interleaving each session id has at most one owner, every id in use was issued, the pool holds
      no session that met a network error, and no retryable write or transaction is given a number that any
      earlier write, transaction or command on that session id used, no matter who held the session then. */
  lemma {:induction false} ClientsAreSafe(cfg: Config, adaptiveRetries: bool, actions: seq<ClientAction>)
    ensures var o := RunClient(cfg, NewClient(adaptiveRetries), actions);
            ClientInv(cfg, o.state, o.events) && FreshNumbers(o.events)
    decreases |actions|
  {
    if actions != [] {
      var init := actions[..|actions|-1];
      ClientsAreSafe(cfg, adaptiveRetries, init);
      var before := RunClient(cfg, NewClient(adaptiveRetries), init);
      ClientStepIsGood(cfg, before.state, before.events, actions[|actions|-1]);
    }
  }

  // ---------------------------------------------------------------------
  // What the bucket admits
  // ---------------------------------------------------------------------

  function Count(log: seq<ClientEvent>, p: ClientEvent -> bool): nat {
    if log == [] then 0 else Count(log[..|log|-1], p) + if p(log[|log|-1]) then 1 else 0
  }

  predicate IsAdmitted(e: ClientEvent) { e.Admitted? }

  predicate IsFirstTry(e: ClientEvent) { e.Succeeded? && !e.isRetry }

  predicate IsRetried(e: ClientEvent) { e.Succeeded? && e.isRetry }

  predicate IsRetryFailed(e: ClientEvent) { e.RetryFailed? }

  lemma {:induction false} CountConcat(first: seq<ClientEvent>, second: seq<ClientEvent>, p: ClientEvent -> bool)
    ensures Count(first + second, p) == Count(first, p) + Count(second, p)
    decreases |second|
  {
    if second == [] {
      assert first + second == first;
    } else {
      assert (first + second)[..|first + second|-1] == first + second[..|second|-1];
      CountConcat(first, second[..|second|-1], p);
    }
  }

  lemma {:induction false} CountObserved(events: seq<Event>, p: ClientEvent -> bool)
    requires forall e: Event :: !p(Observed(e))
    ensures Count(Observe(events), p) == 0
    decreases |events|
  {
    if events != [] {
      assert Observe(events)[..|events|-1] == Observe(events[..|events|-1]);
      CountObserved(events[..|events|-1], p);
    }
  }

  /** Tokens a stretch of events may have brought in. */
  function Earned(log: seq<ClientEvent>): nat {
    Count(log, IsFirstTry) + 11 * Count(log, IsRetried) + Count(log, IsRetryFailed)
  }

  lemma EarnedConcat(first: seq<ClientEvent>, second: seq<ClientEvent>)
    ensures Earned(first + second) == Earned(first) + Earned(second)
    ensures Count(first + second, IsAdmitted) == Count(first, IsAdmitted) + Count(second, IsAdmitted)
  {
    CountConcat(first, second, IsFirstTry);
    CountConcat(first, second, IsRetried);
    CountConcat(first, second, IsRetryFailed);
    CountConcat(first, second, IsAdmitted);
  }

  lemma OnlyTheBucketCounts(bucket: seq<ClientEvent>, events: seq<Event>)
    ensures Earned(bucket + Observe(events)) == Earned(bucket)
    ensures Count(bucket + Observe(events), IsAdmitted) == Count(bucket, IsAdmitted)
  {
    EarnedConcat(bucket, Observe(events));
    CountObserved(events, IsAdmitted);
    CountObserved(events, IsFirstTry);
    CountObserved(events, IsRetried);
    CountObserved(events, IsRetryFailed);
  }

  lemma CountOne(e: ClientEvent, p: ClientEvent -> bool)
    ensures Count([e], p) == if p(e) then 1 else 0
  {
    assert [e][..0] == [];
  }

  lemma StepAccounts(cfg: Config, c: Client, a: ClientAction)
    requires c.tokens.Some?
    ensures var o := ClientStep(cfg, c, a);
            && o.state.tokens.Some?
            && 10 * Count(o.events, IsAdmitted) + o.state.tokens.value <= c.tokens.value + Earned(o.events)
  {
    var o := ClientStep(cfg, c, a);
    if a.Act? && a.owner in c.owners
       && (c.owners[a.owner].Live? || (c.owners[a.owner].Aborting? && TaskAction(a.action))) {
      var st := c.owners[a.owner].state;
      var effect := BucketEffect(cfg, st, a.action);
      var events := Step(cfg, st, WithAnswer(a.action, Admits(c.tokens))).events;
      var bucket := BucketEvents(c.tokens, effect);
      OnlyTheBucketCounts(bucket, events);
      BucketAccounts(c.tokens.value, effect);
    }
  }

  /** The tokens after a step, to the token: ten less for a retry that was admitted, one more for an operation that
      succeeded at once, eleven for one that succeeded on a retry, one for a retry that failed for another
      reason than overload, and never more than the bucket holds. */
  predicate Books(before: Option<nat>, after: Option<nat>, events: seq<ClientEvent>)
    requires before.Some?
  {
    && after.Some? && before.value >= 10 * Count(events, IsAdmitted)
    && after.value == Min(before.value - 10 * Count(events, IsAdmitted) + Earned(events), 10_000)
  }

  lemma StepBooksExactly(cfg: Config, c: Client, a: ClientAction)
    requires c.tokens.Some? && c.tokens.value <= 10_000
    ensures var o := ClientStep(cfg, c, a); Books(c.tokens, o.state.tokens, o.events)
  {
    var o := ClientStep(cfg, c, a);
    if a.Act? && a.owner in c.owners
       && (c.owners[a.owner].Live? || (c.owners[a.owner].Aborting? && TaskAction(a.action))) {
      var st := c.owners[a.owner].state;
      AppliedBooks(c, a.owner, Step(cfg, st, WithAnswer(a.action, Admits(c.tokens))), BucketEffect(cfg, st, a.action));
    } else {
      NothingBooks(c.tokens.value, o.events);
    }
  }

  lemma NothingBooks(tokens: nat, events: seq<ClientEvent>)
    requires tokens <= 10_000 && events == []
    ensures Books(Some(tokens), Some(tokens), events)
  {
  }

  lemma AppliedBooks(c: Client, owner: OwnerId, step: Outcome<State, Event>, effect: BucketOp)
    requires c.tokens.Some? && c.tokens.value <= 10_000 && owner in c.owners && !c.owners[owner].Returning?
    ensures var o := Applied(c, owner, step, effect); Books(c.tokens, o.state.tokens, o.events)
  {
    OnlyTheBucketCounts(BucketEvents(c.tokens, effect), step.events);
    BucketBooks(c.tokens.value, effect);
  }

  lemma BucketBooks(tokens: nat, effect: BucketOp)
    requires tokens <= 10_000
    ensures var bucket := BucketEvents(Some(tokens), effect);
            && tokens >= 10 * Count(bucket, IsAdmitted)
            && TokensAfter(Some(tokens), effect) ==
               Some(Min(tokens - 10 * Count(bucket, IsAdmitted) + Earned(bucket), 10_000))
  {
    if !effect.Nothing? {
      var e := BucketEvents(Some(tokens), effect)[0];
      CountOne(e, IsAdmitted);
      CountOne(e, IsFirstTry);
      CountOne(e, IsRetried);
      CountOne(e, IsRetryFailed);
    }
  }

  /** A reply that the operation accepts is booked as a success, of a retry if it was one. */
  lemma SuccessIsBooked(cfg: Config, c: Client, owner: OwnerId, input: ReplyInput)
    requires owner in c.owners && c.owners[owner].Live? && c.owners[owner].state.phase.Waiting?
    requires input.received.Replied? && input.received.reply.Reply? && input.handled.None?
    requires var reply := input.received.reply; reply.failure.None? && !reply.recoveryToken.BadToken?
    ensures var o := ClientStep(cfg, c, Act(owner, Answer(input)));
            |o.events| > 0 && o.events[0] == Succeeded(c.owners[owner].state.phase.run.retry.Some?)
  {
    var st := c.owners[owner].state;
    assert BucketEffect(cfg, st, Answer(input)) == DepositSuccess(st.phase.run.retry.Some?);
  }

  /** An overload retry asks the bucket first, and one that is denied ends the operation. */
  lemma BucketIsAsked(cfg: Config, c: Client, owner: OwnerId, input: SelectInput)
    requires owner in c.owners && c.owners[owner].Live? && c.owners[owner].state.phase.Selecting?
    requires var retry := c.owners[owner].state.phase.run.retry;
             retry.Some? && retry.value.overloaded && retry.value.attempt <= retry.value.maxRetries
    ensures var o := ClientStep(cfg, c, Act(owner, Select(input)));
            if c.tokens.None? || c.tokens.value >= 10 then |o.events| > 0 && o.events[0] == Admitted
            else o.events == [Denied, Observed(OperationEnded(c.owners[owner].state.phase.run.op.id))]
  {
    var st := c.owners[owner].state;
    assert BucketEffect(cfg, st, Select(input)) == Consume;
    if c.tokens.Some? && c.tokens.value < 10 {
      var o := Step(cfg, st, WithAnswer(Select(input), false));
      assert o.events == [OperationEnded(st.phase.run.op.id)];
      assert Observe(o.events) == [Observed(OperationEnded(st.phase.run.op.id))];
    }
  }

  lemma BucketAccounts(tokens: nat, effect: BucketOp)
    ensures var bucket := BucketEvents(Some(tokens), effect);
            10 * Count(bucket, IsAdmitted) + TokensAfter(Some(tokens), effect).value <= tokens + Earned(bucket)
  {
    if !effect.Nothing? {
      var bucket := BucketEvents(Some(tokens), effect);
      assert |bucket| == 1 && bucket[..0] == [];
    }
  }

  /** Over any stretch of any run, ten tokens for each overload retry admitted are covered by the
      tokens at its start, one for each operation that succeeded at once, eleven for each that
      succeeded on a retry and one for each retry that failed for another reason than overload. */
  lemma {:induction false} AdmittedRetriesArePaidFor(cfg: Config, c: Client, actions: seq<ClientAction>)
    requires c.tokens.Some?
    ensures var o := RunClient(cfg, c, actions);
            && o.state.tokens.Some?
            && 10 * Count(o.events, IsAdmitted) + o.state.tokens.value <= c.tokens.value + Earned(o.events)
    decreases |actions|
  {
    if actions != [] {
      var init := actions[..|actions|-1];
      AdmittedRetriesArePaidFor(cfg, c, init);
      var before := RunClient(cfg, c, init);
      StepAccounts(cfg, before.state, actions[|actions|-1]);
      EarnedConcat(before.events, ClientStep(cfg, before.state, actions[|actions|-1]).events);
    }
  }
}
