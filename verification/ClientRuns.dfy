/** What becomes of the sessions of a client: a server session that met a network error is never used again, and a
    transaction that is dropped is aborted (driver/src/client/executor.rs:724-728,
    driver/src/client/session.rs:406-451, driver/src/client/session/pool.rs:42-59).
 */
module ClientRuns {
  import opened Wrappers
  import opened Machines
  import opened Sessions
  import opened Executor
  import opened SessionPool
  import opened Clients
  import TokenBucket
  import Progress

  /** Nobody has this server session but owners that know that it is marked. */
  predicate OnlyMarked(c: Client, id: Lsid) {
    && id in c.issued
    && (forall i | 0 <= i < |c.pool| :: c.pool[i].id != id)
    && (forall o | o in c.owners && ServerOf(c.owners[o]).id == id :: ServerOf(c.owners[o]).dirty)
  }

  /** A session that is opened gets a pooled server session or one that was never issued. */
  lemma OpenedIsAnother(cfg: Config, c: Client, a: ClientAction, id: Lsid)
    requires OnlyMarked(c, id) && a.Open? && a.owner !in c.owners && a.uuid !in c.issued
    ensures var c' := ClientStep(cfg, c, a).state;
            a.owner in c'.owners && ServerOf(c'.owners[a.owner]).id != id && OnlyMarked(c', id)
  {
    CheckOutTakesTheFirst(c.pool, a.expiring, a.uuid);
  }

  /** An action other than a session's own step. */
  lemma HandlingKeepsMarks(cfg: Config, c: Client, a: ClientAction, id: Lsid)
    requires OnlyMarked(c, id) && !a.Act?
    ensures OnlyMarked(ClientStep(cfg, c, a).state, id)
  {
    if a.Open? {
      if a.owner !in c.owners && a.uuid !in c.issued { OpenedIsAnother(cfg, c, a, id); }
    } else if a.owner in c.owners {
      assert a.Drop? && !c.owners[a.owner].Returning? ==>
               ServerOf(Dropped(c.owners[a.owner].state)) == ServerOf(c.owners[a.owner]);
    }
  }

  lemma ActKeepsMarks(cfg: Config, c: Client, owner: OwnerId, a: Action, id: Lsid)
    requires OnlyMarked(c, id) && owner in c.owners && !c.owners[owner].Returning? && Sound(cfg, c.owners[owner].state)
    ensures OnlyMarked(ActOn(cfg, c, owner, a).state, id)
  {
    var a' := WithAnswer(a, TokenBucket.Admits(c.tokens));
    StepNumbers(cfg, c.owners[owner].state, a');
    Progress.LostConnectionTaints(cfg, c.owners[owner].state, a');
  }

  lemma StepKeepsMarks(cfg: Config, c: Client, a: ClientAction, id: Lsid)
    requires OnlyMarked(c, id) && AllSound(cfg, c)
    ensures OnlyMarked(ClientStep(cfg, c, a).state, id)
  {
    if !a.Act? {
      HandlingKeepsMarks(cfg, c, a, id);
    } else if a.owner in c.owners
              && (c.owners[a.owner].Live? || (c.owners[a.owner].Aborting? && TaskAction(a.action))) {
      ActKeepsMarks(cfg, c, a.owner, a.action, id);
    }
  }

  /** The step in which a command loses its connection. */
  lemma LosingMarks(cfg: Config, c: Client, owner: OwnerId, input: ReplyInput)
    requires OneOwner(c) && AllIssued(c) && AllSound(cfg, c)
    requires owner in c.owners && !c.owners[owner].Returning? && c.owners[owner].state.phase.Waiting?
    requires Progress.Loses(input.received)
    ensures OnlyMarked(ClientStep(cfg, c, Act(owner, Answer(input))).state, ServerOf(c.owners[owner]).id)
  {
    StepNumbers(cfg, c.owners[owner].state, Answer(input));
    Progress.LostConnectionTaints(cfg, c.owners[owner].state, Answer(input));
  }

  lemma {:induction false} StaysMarked(cfg: Config, adaptiveRetries: bool, before: seq<ClientAction>,
                                       more: seq<ClientAction>, id: Lsid)
    requires OnlyMarked(RunClient(cfg, NewClient(adaptiveRetries), before).state, id)
    ensures OnlyMarked(RunClient(cfg, NewClient(adaptiveRetries), before + more).state, id)
    decreases |more|
  {
    if more == [] {
      assert before + more == before;
    } else {
      var init, last := more[..|more| - 1], more[|more| - 1];
      StaysMarked(cfg, adaptiveRetries, before, init, id);
      assert before + more == (before + init) + [last];
      FoldAppend(ClientStepper(cfg), NewClient(adaptiveRetries), before + init, last);
      ClientsAreSafe(cfg, adaptiveRetries, before + init);
      StepKeepsMarks(cfg, RunClient(cfg, NewClient(adaptiveRetries), before + init).state, last, id);
    }
  }

  /** After a command lost its connection, whatever the client does next, its server session is never in the pool
      and no session that is opened gets it. */
  lemma NeverHandedOutAgain(cfg: Config, adaptiveRetries: bool, before: seq<ClientAction>, owner: OwnerId,
                            input: ReplyInput, more: seq<ClientAction>, open: ClientAction)
    requires var c := RunClient(cfg, NewClient(adaptiveRetries), before).state;
             owner in c.owners && !c.owners[owner].Returning? && c.owners[owner].state.phase.Waiting?
    requires Progress.Loses(input.received) && open.Open?
    ensures var id := ServerOf(RunClient(cfg, NewClient(adaptiveRetries), before).state.owners[owner]).id;
            var c := RunClient(cfg, NewClient(adaptiveRetries), before + [Act(owner, Answer(input))] + more).state;
            && (forall i | 0 <= i < |c.pool| :: c.pool[i].id != id)
            && (open.owner !in c.owners && open.uuid !in c.issued ==>
                  var c' := ClientStep(cfg, c, open).state;
                  open.owner in c'.owners && ServerOf(c'.owners[open.owner]).id != id)
  {
    var start, act := NewClient(adaptiveRetries), Act(owner, Answer(input));
    var c0 := RunClient(cfg, start, before).state;
    var id := ServerOf(c0.owners[owner]).id;
    ClientsAreSafe(cfg, adaptiveRetries, before);
    LosingMarks(cfg, c0, owner, input);
    FoldAppend(ClientStepper(cfg), start, before, act);
    StaysMarked(cfg, adaptiveRetries, before + [act], more, id);
    var c := RunClient(cfg, start, before + [act] + more).state;
    if open.owner !in c.owners && open.uuid !in c.issued { OpenedIsAnother(cfg, c, open, id); }
  }

  // ---------------------------------------------------------------------
  // Dropped sessions
  // ---------------------------------------------------------------------

  /** A dropped session whose transaction is in progress is kept by a task that can abort it; any other one is on
      its way back, with its server session as it was. */
  lemma DroppedGoesTo(cfg: Config, c: Client, owner: OwnerId)
    requires owner in c.owners && !c.owners[owner].Returning?
    ensures var st, c' := c.owners[owner].state, ClientStep(cfg, c, Drop(owner)).state;
            && owner in c'.owners && c'.pool == c.pool && c'.owners - {owner} == c.owners - {owner}
            && c'.owners[owner] == if st.session.transaction.state.InProgress? then Aborting(State(st.session, Idle))
                                   else Returning(st.session.server)
  {
  }

  /** The session takes this step, and the bucket stays as it is. */
  lemma ActOnce(cfg: Config, c: Client, owner: OwnerId, a: Action, o: Outcome<State, Event>)
    requires owner in c.owners && c.owners[owner].Aborting? && TaskAction(a)
    requires BucketEffect(cfg, c.owners[owner].state, a).Nothing?
    requires Step(cfg, c.owners[owner].state, a) == o && WithAnswer(a, TokenBucket.Admits(c.tokens)) == a
    ensures ClientStep(cfg, c, Act(owner, a)) ==
            Outcome(c.(owners := c.owners[owner := Aborting(o.state)]), Observe(o.events))
  {
    assert [] + Observe(o.events) == Observe(o.events);
  }

  /** A transaction is dropped and its background job runs. */
  function Task(owner: OwnerId, id: OpId, to: Progress.Reach, time: Option<ClusterTime>): seq<ClientAction> {
    [Drop(owner), Act(owner, AbortCall(id, true)), Act(owner, Progress.Reaches(to)), Act(owner, Build(Transmit(time)))]
  }

  /** It sends abortTransaction, under the transaction's number, as soon as there is a server. */
  lemma DroppedTransactionIsAborted(cfg: Config, c: Client, owner: OwnerId, id: OpId, to: Progress.Reach,
                                    time: Option<ClusterTime>)
    returns (command: Command)
    requires owner in c.owners && c.owners[owner].Live? && to.granted == TokenBucket.Admits(c.tokens)
    requires c.owners[owner].state.session.transaction.state.InProgress?
    ensures var s := c.owners[owner].state.session;
            && command.name.AbortName? && command.lsid == Some(s.server.id)
            && command.txnNumber == Some(s.server.txnNumber) && command.autocommit
    ensures Observed(CommandBuilt(command, true)) in RunClient(cfg, c, Task(owner, id, to, time)).events
  {
    var s := c.owners[owner].state.session;
    var o;
    command, o := Progress.AbortSends(cfg, s, id, to, time);
    var o1 := Step(cfg, State(s, Idle), AbortCall(id, true));
    var o2 := Step(cfg, o1.state, Progress.Reaches(to));
    var o3 := Step(cfg, o2.state, Build(Transmit(time)));
    FoldOne(Stepper(cfg), State(s, Idle), AbortCall(id, true));
    FoldTwo(Stepper(cfg), o1.state, Progress.Reaches(to), Build(Transmit(time)));
    FoldConcat(Stepper(cfg), State(s, Idle), [AbortCall(id, true)], Progress.Sending(to, time));
    var events := o1.events + (o2.events + o3.events);
    assert events[|events| - 1] == CommandBuilt(command, true);
    TaskRuns(cfg, c, owner, id, to, time, o1, o2, o3);
    ObservedIn(events, CommandBuilt(command, true));
  }

  lemma ObservedIn(events: seq<Event>, e: Event)
    requires e in events
    ensures Observed(e) in Observe(events)
  {
    var i :| 0 <= i < |events| && events[i] == e;
    assert Observe(events)[i] == Observed(e);
  }

  lemma TaskRuns(cfg: Config, c: Client, owner: OwnerId, id: OpId, to: Progress.Reach, time: Option<ClusterTime>,
                 o1: Outcome<State, Event>, o2: Outcome<State, Event>, o3: Outcome<State, Event>)
    requires owner in c.owners && c.owners[owner].Live? && to.granted == TokenBucket.Admits(c.tokens)
    requires var s := c.owners[owner].state.session;
             s.transaction.state.InProgress? && o1 == Step(cfg, State(s, Idle), AbortCall(id, true))
    requires o2 == Step(cfg, o1.state, Progress.Reaches(to)) && o3 == Step(cfg, o2.state, Build(Transmit(time)))
    ensures RunClient(cfg, c, Task(owner, id, to, time)).events == Observe(o1.events + (o2.events + o3.events))
  {
    var s := c.owners[owner].state.session;
    var c1 := c.(owners := c.owners[owner := Aborting(State(s, Idle))]);
    assert ClientStep(cfg, c, Drop(owner)) == Outcome(c1, []);
    AbortPhases(cfg, s, id, to, time);
    ActOnce(cfg, c1, owner, AbortCall(id, true), o1);
    var c2 := c1.(owners := c1.owners[owner := Aborting(o1.state)]);
    ActOnce(cfg, c2, owner, Progress.Reaches(to), o2);
    var c3 := c2.(owners := c2.owners[owner := Aborting(o2.state)]);
    ActOnce(cfg, c3, owner, Build(Transmit(time)), o3);
    var t := Task(owner, id, to, time);
    FoldFour(ClientStepper(cfg), c, t[0], t[1], t[2], t[3]);
    ObserveThree(o1.events, o2.events, o3.events);
  }

  lemma ObserveThree(a: seq<Event>, b: seq<Event>, c: seq<Event>)
    ensures [] + Observe(a) + Observe(b) + Observe(c) == Observe(a + (b + c))
  {
  }

  /** The phases of an abort up to its command; none of its steps concerns the bucket. */
  lemma AbortPhases(cfg: Config, s: Session, id: OpId, to: Progress.Reach, time: Option<ClusterTime>)
    requires s.transaction.state.InProgress?
    ensures var o1 := Step(cfg, State(s, Idle), AbortCall(id, true));
            var o2 := Step(cfg, o1.state, Progress.Reaches(to));
            && BucketEffect(cfg, State(s, Idle), AbortCall(id, true)).Nothing?
            && BucketEffect(cfg, o1.state, Progress.Reaches(to)).Nothing?
            && BucketEffect(cfg, o2.state, Build(Transmit(time))).Nothing?
  {
    var o1 := Step(cfg, State(s, Idle), AbortCall(id, true));
    var a := Progress.ConnectsFirst(cfg, o1.state.session, o1.state.phase.run, to);
  }
}
