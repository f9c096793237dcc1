/** The guarantees of one session over whole runs, stated on the log of events alone. `Since(P, Q)`
    reads "some P happened and no Q has happened after it"; every result says of each command in
    the log of each run what must, and what must not, have happened before it.
 */
module SessionRuns {
  import opened Wrappers
  import opened Machines
  import opened Errors
  import opened Sessions
  import opened Executor
  import opened Protocol

  ghost predicate SinceAt(log: seq<Event>, p: Event -> bool, q: Event -> bool, i: int) {
    0 <= i < |log| && p(log[i]) && forall k | i < k < |log| :: !q(log[k])
  }

  ghost predicate Since(log: seq<Event>, p: Event -> bool, q: Event -> bool) {
    exists i :: SinceAt(log, p, q, i)
  }

  lemma SinceSnoc(log: seq<Event>, e: Event, p: Event -> bool, q: Event -> bool)
    ensures Since(log + [e], p, q) <==> p(e) || (Since(log, p, q) && !q(e))
  {
    var longer := log + [e];
    if p(e) { assert SinceAt(longer, p, q, |log|); }
    if Since(log, p, q) && !q(e) {
      var i :| SinceAt(log, p, q, i);
      assert SinceAt(longer, p, q, i);
    }
    if Since(longer, p, q) && !p(e) {
      var i :| SinceAt(longer, p, q, i);
      assert longer[|log|] == e;
      forall k | i < k < |log| ensures !q(log[k]) { assert longer[k] == log[k]; }
      assert SinceAt(log, p, q, i);
    }
  }

  // ---------------------------------------------------------------------
  // Kinds of events
  // ---------------------------------------------------------------------

  predicate IsStart(e: Event) { e.TransactionStarted? }

  predicate IsReset(e: Event) { e.TransactionReset? }

  predicate IsBegan(e: Event) { e.OperationBegan? }

  /** An operation is over: it returned, or it was dropped where it waited. */
  predicate IsOver(e: Event) { e.OperationEnded? || e.OperationDropped? }

  function Begins(op: OpId): Event -> bool { (e: Event) => e.OperationBegan? && e.op == op }

  predicate Turns(e: Event) { e.OperationBegan? || IsOver(e) }

  predicate IsCommand(e: Event) { e.CommandBuilt? }

  predicate EndsTransaction(e: Event) { e.TransactionCommitted? || e.TransactionAborted? || e.TransactionReset? }

  /** The first operation of a transaction is behind us. One that was dropped is not. */
  predicate Closes(e: Event) { EndsTransaction(e) || e.OperationEnded? || e.ReplyMovedOn? }

  /** A number is given to a transaction or to a retryable write. */
  predicate HandsOut(e: Event) { e.WriteNumbered? || e.TransactionStarted? }

  function StartsWith(number: int): Event -> bool { (e: Event) => e.TransactionStarted? && e.number == number }

  function Numbers(number: int): Event -> bool { (e: Event) => e.WriteNumbered? && e.number == number }

  function Tokens(token: Token): Event -> bool { (e: Event) => e.TokenReceived? && e.token == Some(token) }

  predicate ReplacesToken(e: Event) { e.TokenReceived? || IsStart(e) || IsReset(e) }

  function OpensOn(address: Address): Event -> bool {
    (e: Event) =>
      && e.CommandBuilt? && e.command.startTransaction
      && e.command.conn.isMongos && e.command.conn.address == address
  }

  predicate Unpinning(e: Event) {
    || ((e.Failed? || e.Unselected?) && Unpins(e.error))
    || e.TransactionAborted? || e.TransactionReset? || e.TransactionUnpinned?
  }

  /** What lets an operation inside a transaction send another command; a new operation starts afresh. */
  predicate Excuses(e: Event) {
    || e.Reauthenticated?
    || (e.Retrying? && Overloaded(e.error))
    || e.OperationBegan?
  }

  function Retries(log: seq<Event>): nat {
    if log == [] then 0
    else
      var e, before := log[|log|-1], log[..|log|-1];
      if e.OperationBegan? then 0 else Retries(before) + if e.Retrying? then 1 else 0
  }

  // ---------------------------------------------------------------------
  // The observer's memory in terms of the log
  // ---------------------------------------------------------------------

  ghost predicate StateRemembered(m: Monitor, log: seq<Event>) {
    && (m.state.Starting? <==> Since(log, IsStart, Closes))
    && (Inside(m.state) <==> Since(log, IsStart, EndsTransaction))
    && (!m.state.NoTransaction? <==> Since(log, IsStart, IsReset))
    && (!m.state.NoTransaction? ==> Since(log, StartsWith(m.started), IsStart))
  }

  ghost predicate NumbersRemembered(m: Monitor, log: seq<Event>) {
    && (forall n :: m.written == Some(n) <==> Since(log, Numbers(n), IsBegan))
    && m.retries == Retries(log)
    && (m.sent <==> Since(log, IsCommand, Excuses))
  }

  ghost predicate ServersRemembered(cfg: Config, m: Monitor, log: seq<Event>) {
    && (forall t: Token :: m.token == Some(t) <==> Since(log, Tokens(t), ReplacesToken))
    && (!cfg.loadBalanced ==> forall x: Address :: m.pin == Some(Mongos(x)) <==> Since(log, OpensOn(x), Unpinning))
  }

  ghost predicate OperationRemembered(m: Monitor, log: seq<Event>) {
    && (m.active.Some? <==> Since(log, IsBegan, IsOver))
    && (forall op: OpId :: m.active == Some(op) <==> Since(log, Begins(op), Turns))
  }

  lemma {:induction false} StateIsRemembered(cfg: Config, server: ServerSession, log: seq<Event>)
    requires AcceptAll(cfg, Fresh(server), log)
    ensures StateRemembered(ObserveAll(cfg, Fresh(server), log), log)
    decreases |log|
  {
    if log != [] {
      var before, e := log[..|log|-1], log[|log|-1];
      assert log == before + [e];
      Snoc(cfg, Fresh(server), before, e);
      StateIsRemembered(cfg, server, before);
      SinceSnoc(before, e, IsStart, Closes);
      SinceSnoc(before, e, IsStart, EndsTransaction);
      SinceSnoc(before, e, IsStart, IsReset);
      SinceSnoc(before, e, StartsWith(ObserveAll(cfg, Fresh(server), log).started), IsStart);
    }
  }

  lemma {:induction false} NumbersAreRemembered(cfg: Config, server: ServerSession, log: seq<Event>)
    requires AcceptAll(cfg, Fresh(server), log)
    ensures NumbersRemembered(ObserveAll(cfg, Fresh(server), log), log)
    decreases |log|
  {
    if log != [] {
      var before, e := log[..|log|-1], log[|log|-1];
      assert log == before + [e];
      Snoc(cfg, Fresh(server), before, e);
      NumbersAreRemembered(cfg, server, before);
      NumbersAfter(cfg, ObserveAll(cfg, Fresh(server), before), before, e);
    }
  }

  /** One more event, as far as numbers and commands go. */
  lemma NumbersAfter(cfg: Config, m: Monitor, before: seq<Event>, e: Event)
    requires NumbersRemembered(m, before) && Accept(cfg, m, e)
    ensures NumbersRemembered(Observe(cfg, m, e), before + [e])
  {
    var m', log := Observe(cfg, m, e), before + [e];
    forall n ensures m'.written == Some(n) <==> Since(log, Numbers(n), IsBegan) {
      SinceSnoc(before, e, Numbers(n), IsBegan);
    }
    SinceSnoc(before, e, IsCommand, Excuses);
    assert log[..|log| - 1] == before;
  }

  lemma {:induction false} ServersAreRemembered(cfg: Config, server: ServerSession, log: seq<Event>)
    requires AcceptAll(cfg, Fresh(server), log)
    ensures ServersRemembered(cfg, ObserveAll(cfg, Fresh(server), log), log)
    decreases |log|
  {
    if log != [] {
      var before, e := log[..|log|-1], log[|log|-1];
      assert log == before + [e];
      Snoc(cfg, Fresh(server), before, e);
      ServersAreRemembered(cfg, server, before);
      var m0, m := ObserveAll(cfg, Fresh(server), before), ObserveAll(cfg, Fresh(server), log);
      forall t: Token ensures m.token == Some(t) <==> Since(log, Tokens(t), ReplacesToken) {
        SinceSnoc(before, e, Tokens(t), ReplacesToken);
      }
      if !cfg.loadBalanced {
        forall x: Address ensures m.pin == Some(Mongos(x)) <==> Since(log, OpensOn(x), Unpinning) {
          SinceSnoc(before, e, OpensOn(x), Unpinning);
        }
      }
    }
  }

  lemma {:induction false} OperationIsRemembered(cfg: Config, server: ServerSession, log: seq<Event>)
    requires AcceptAll(cfg, Fresh(server), log)
    ensures OperationRemembered(ObserveAll(cfg, Fresh(server), log), log)
    decreases |log|
  {
    if log != [] {
      var before, e := log[..|log|-1], log[|log|-1];
      assert log == before + [e];
      Snoc(cfg, Fresh(server), before, e);
      OperationIsRemembered(cfg, server, before);
      SinceSnoc(before, e, IsBegan, IsOver);
      var m := ObserveAll(cfg, Fresh(server), log);
      forall op: OpId ensures m.active == Some(op) <==> Since(log, Begins(op), Turns) {
        SinceSnoc(before, e, Begins(op), Turns);
      }
    }
  }

  lemma {:induction false} TimesAreRemembered(cfg: Config, server: ServerSession, log: seq<Event>, i: nat)
    requires i < |log|
    ensures log[i].TimeProcessed? ==> log[i].clusterTime in ObserveAll(cfg, Fresh(server), log).times
    ensures log[i].OperationTimeProcessed? ==> log[i].timestamp in ObserveAll(cfg, Fresh(server), log).operationTimes
    decreases |log|
  {
    var before, e := log[..|log|-1], log[|log|-1];
    assert log == before + [e];
    Snoc(cfg, Fresh(server), before, e);
    if i < |before| { TimesAreRemembered(cfg, server, before, i); }
  }

  lemma {:induction false} TimesWereProcessed(cfg: Config, server: ServerSession, log: seq<Event>)
    ensures forall t | t in ObserveAll(cfg, Fresh(server), log).times ::
              exists i :: 0 <= i < |log| && log[i].TimeProcessed? && log[i].clusterTime == t
    ensures forall t | t in ObserveAll(cfg, Fresh(server), log).operationTimes ::
              exists i :: 0 <= i < |log| && log[i].OperationTimeProcessed? && log[i].timestamp == t
    decreases |log|
  {
    if log != [] {
      var before, e := log[..|log|-1], log[|log|-1];
      assert log == before + [e];
      Snoc(cfg, Fresh(server), before, e);
      TimesWereProcessed(cfg, server, before);
      forall t | t in ObserveAll(cfg, Fresh(server), log).times
        ensures exists i :: 0 <= i < |log| && log[i].TimeProcessed? && log[i].clusterTime == t
      {
        if t in ObserveAll(cfg, Fresh(server), before).times {
          var i :| 0 <= i < |before| && before[i].TimeProcessed? && before[i].clusterTime == t;
          assert log[i] == before[i];
        } else {
          assert log[|log|-1].TimeProcessed?;
        }
      }
      forall t | t in ObserveAll(cfg, Fresh(server), log).operationTimes
        ensures exists i :: 0 <= i < |log| && log[i].OperationTimeProcessed? && log[i].timestamp == t
      {
        if t in ObserveAll(cfg, Fresh(server), before).operationTimes {
          var i :| 0 <= i < |before| && before[i].OperationTimeProcessed? && before[i].timestamp == t;
          assert log[i] == before[i];
        } else {
          assert log[|log|-1].OperationTimeProcessed?;
        }
      }
    }
  }

  // ---------------------------------------------------------------------
  // Results
  // ---------------------------------------------------------------------

  /** Everything a new session observably does in a run. */
  function Log(cfg: Config, server: ServerSession, implicit: bool, actions: seq<Action>): seq<Event> {
    Execute(cfg, State(NewSession(server, implicit), Idle), actions).events
  }

  /** The observer's memory just before event `j`, and that the event was accepted. */
  lemma Accepted(cfg: Config, server: ServerSession, implicit: bool, actions: seq<Action>, j: nat) returns (m: Monitor)
    requires j < |Log(cfg, server, implicit, actions)|
    ensures var log := Log(cfg, server, implicit, actions);
            && m == ObserveAll(cfg, Fresh(server), log[..j])
            && AcceptAll(cfg, Fresh(server), log[..j])
            && Accept(cfg, m, log[j])
  {
    var log := Log(cfg, server, implicit, actions);
    NewSessionsAreMirrored(cfg, server, implicit);
    RunsAreAccepted(cfg, Fresh(server), State(NewSession(server, implicit), Idle), actions);
    assert log == log[..j] + [log[j]] + log[j+1..];
    Concat(cfg, Fresh(server), log[..j] + [log[j]], log[j+1..]);
    Snoc(cfg, Fresh(server), log[..j], log[j]);
    m := ObserveAll(cfg, Fresh(server), log[..j]);
  }

  /** The two transaction flags of every command that names the session. It opens a transaction
      exactly when one was started and neither its first operation nor the transaction ended since;
      it belongs to a transaction exactly when one was started and not reset since. A command that
      does not name the session carries no flag. */
  lemma TransactionFlags(cfg: Config, server: ServerSession, implicit: bool, actions: seq<Action>, j: nat)
    requires j < |Log(cfg, server, implicit, actions)| && Log(cfg, server, implicit, actions)[j].CommandBuilt?
    ensures var log := Log(cfg, server, implicit, actions);
            var c := log[j].command;
            if c.lsid.Some? then
              && c.lsid == Some(server.id)
              && (c.startTransaction <==> Since(log[..j], IsStart, Closes))
              && (c.autocommit <==> Since(log[..j], IsStart, IsReset))
            else !c.startTransaction && !c.autocommit && c.txnNumber.None?
  {
    var m := Accepted(cfg, server, implicit, actions, j);
    var log := Log(cfg, server, implicit, actions);
    StateIsRemembered(cfg, server, log[..j]);
    LsidIsFixed(cfg, Fresh(server), log[..j]);
  }

  /** Only event `b` begins an operation between `i` and `j`. */
  predicate OnlyBegins(log: seq<Event>, i: nat, j: nat, b: nat)
    requires j <= |log|
  {
    i < b < j && forall k | i < k < j && log[k].OperationBegan? :: k == b
  }

  predicate NoneDropped(log: seq<Event>, i: nat, j: nat)
    requires j <= |log|
  {
    forall k | i < k < j :: !log[k].OperationDropped?
  }

  /** Event `b` begins the operation of command `j`, after event `i`, and no operation begins or is over
      between the two. */
  predicate BeginsCommand(log: seq<Event>, i: nat, j: nat, b: nat) {
    && i < b < j < |log|
    && log[j].CommandBuilt? && log[b].OperationBegan? && log[b].op == log[j].command.op
    && forall k | b < k < j :: !Turns(log[k])
  }

  /** The command that opens a transaction belongs to an operation that began after the start, the last
      one to begin. It is the only one that did exactly when no operation was dropped in between. */
  lemma OneOperationOpens(cfg: Config, server: ServerSession, implicit: bool, actions: seq<Action>, i: nat, j: nat)
    requires j < |Log(cfg, server, implicit, actions)| && Log(cfg, server, implicit, actions)[j].CommandBuilt?
    requires SinceAt(Log(cfg, server, implicit, actions)[..j], IsStart, Closes, i)
    ensures var log := Log(cfg, server, implicit, actions);
            exists b: nat :: BeginsCommand(log, i, j, b) && (OnlyBegins(log, i, j, b) <==> NoneDropped(log, i, j))
  {
    var log := Log(cfg, server, implicit, actions);
    NotEndedSince(log, i, j);
    var b := LastBegan(cfg, server, implicit, actions, i, j);
    if NoneDropped(log, i, j) {
      OnlyOneBegins(cfg, server, implicit, actions, i, j, b);
    } else {
      DropMeansAnother(cfg, server, implicit, actions, i, j, b);
    }
    assert BeginsCommand(log, i, j, b);
  }

  /** So the commands that open a transaction all belong to one operation, if none was dropped. */
  lemma OpenersAreOneOperation(cfg: Config, server: ServerSession, implicit: bool, actions: seq<Action>, i: nat,
                               j: nat, k: nat)
    requires j < k < |Log(cfg, server, implicit, actions)|
    requires Log(cfg, server, implicit, actions)[j].CommandBuilt?
    requires Log(cfg, server, implicit, actions)[k].CommandBuilt?
    requires SinceAt(Log(cfg, server, implicit, actions)[..j], IsStart, Closes, i)
    requires SinceAt(Log(cfg, server, implicit, actions)[..k], IsStart, Closes, i)
    requires NoneDropped(Log(cfg, server, implicit, actions), i, k)
    ensures var log := Log(cfg, server, implicit, actions);
            log[j].command.op == log[k].command.op
  {
    var log := Log(cfg, server, implicit, actions);
    OneOperationOpens(cfg, server, implicit, actions, i, j);
    OneOperationOpens(cfg, server, implicit, actions, i, k);
    var a: nat :| BeginsCommand(log, i, j, a);
    var b: nat :| BeginsCommand(log, i, k, b) && OnlyBegins(log, i, k, b);
    assert log[a].OperationBegan?;
  }

  lemma NotEndedSince(log: seq<Event>, i: nat, j: nat)
    requires j <= |log| && SinceAt(log[..j], IsStart, Closes, i)
    ensures i < j && log[i].TransactionStarted?
    ensures forall n | i < n < j :: !log[n].OperationEnded?
  {
    forall n | i < n < j ensures !log[n].OperationEnded? { assert log[..j][n] == log[n]; }
  }

  lemma OnlyOneBegins(cfg: Config, server: ServerSession, implicit: bool, actions: seq<Action>, i: nat, j: nat, b: nat)
    requires BeginsCommand(Log(cfg, server, implicit, actions), i, j, b)
    requires forall n | i < n < j :: !IsOver(Log(cfg, server, implicit, actions)[n])
    ensures OnlyBegins(Log(cfg, server, implicit, actions), i, j, b)
  {
    var log := Log(cfg, server, implicit, actions);
    forall k | i < k < j && log[k].OperationBegan?
      ensures k == b
    {
      if k < b { NoBeginBeforeEnd(cfg, server, implicit, actions, i, k, b, j); }
    }
  }

  lemma DropMeansAnother(cfg: Config, server: ServerSession, implicit: bool, actions: seq<Action>, i: nat, j: nat,
                         b: nat)
    requires BeginsCommand(Log(cfg, server, implicit, actions), i, j, b)
    requires Log(cfg, server, implicit, actions)[i].TransactionStarted?
    requires !NoneDropped(Log(cfg, server, implicit, actions), i, j)
    ensures !OnlyBegins(Log(cfg, server, implicit, actions), i, j, b)
  {
    var log := Log(cfg, server, implicit, actions);
    var d :| i < d < j && log[d].OperationDropped?;
    var b' := BeganBefore(cfg, server, implicit, actions, i, d);
    assert d < b;
  }

  /** The operation of a command began last before it, and after the start of its transaction. */
  lemma LastBegan(cfg: Config, server: ServerSession, implicit: bool, actions: seq<Action>, i: nat, j: nat)
    returns (b: nat)
    requires i < j < |Log(cfg, server, implicit, actions)|
    requires Log(cfg, server, implicit, actions)[i].TransactionStarted?
    requires Log(cfg, server, implicit, actions)[j].CommandBuilt?
    ensures BeginsCommand(Log(cfg, server, implicit, actions), i, j, b)
  {
    var log := Log(cfg, server, implicit, actions);
    var m := Accepted(cfg, server, implicit, actions, j);
    b := BeganSince(cfg, server, implicit, actions, j, m, log[j].command.op);
    if b < i { NothingRunsAtStart(cfg, server, implicit, actions, b, i); }
  }

  /** The operation that runs before event `j` began, and nothing began or was over since. */
  lemma BeganSince(cfg: Config, server: ServerSession, implicit: bool, actions: seq<Action>, j: nat, m: Monitor,
                   op: OpId)
    returns (b: nat)
    requires j <= |Log(cfg, server, implicit, actions)|
    requires AcceptAll(cfg, Fresh(server), Log(cfg, server, implicit, actions)[..j])
    requires m == ObserveAll(cfg, Fresh(server), Log(cfg, server, implicit, actions)[..j]) && m.active == Some(op)
    ensures b < j && Begins(op)(Log(cfg, server, implicit, actions)[b])
    ensures forall k | b < k < j :: !Turns(Log(cfg, server, implicit, actions)[k])
  {
    var log := Log(cfg, server, implicit, actions);
    OperationIsRemembered(cfg, server, log[..j]);
    b :| SinceAt(log[..j], Begins(op), Turns, b);
    forall k | b < k < j ensures !Turns(log[k]) { assert log[..j][k] == log[k]; }
  }

  /** So did an operation that was dropped. */
  lemma BeganBefore(cfg: Config, server: ServerSession, implicit: bool, actions: seq<Action>, i: nat, d: nat)
    returns (b: nat)
    requires i < d < |Log(cfg, server, implicit, actions)|
    requires Log(cfg, server, implicit, actions)[i].TransactionStarted?
    requires Log(cfg, server, implicit, actions)[d].OperationDropped?
    ensures i < b < d && Log(cfg, server, implicit, actions)[b].OperationBegan?
  {
    var log := Log(cfg, server, implicit, actions);
    var m := Accepted(cfg, server, implicit, actions, d);
    b := BeganSince(cfg, server, implicit, actions, d, m, log[d].op);
    if b < i { NothingRunsAtStart(cfg, server, implicit, actions, b, i); }
  }

  /** Between the begin of an operation and the start of a transaction the operation was over. */
  lemma NothingRunsAtStart(cfg: Config, server: ServerSession, implicit: bool, actions: seq<Action>, b: nat, i: nat)
    requires b < i < |Log(cfg, server, implicit, actions)|
    requires Log(cfg, server, implicit, actions)[b].OperationBegan?
    requires Log(cfg, server, implicit, actions)[i].TransactionStarted?
    ensures exists k :: b < k < i && IsOver(Log(cfg, server, implicit, actions)[k])
  {
    var log := Log(cfg, server, implicit, actions);
    var m := Accepted(cfg, server, implicit, actions, i);
    OperationIsRemembered(cfg, server, log[..i]);
    assert log[..i][b] == log[b];
    assert !SinceAt(log[..i], IsBegan, IsOver, b);
    var k :| b < k < i && IsOver(log[..i][k]);
    assert log[..i][k] == log[k];
  }

  lemma NoBeginBeforeEnd(cfg: Config, server: ServerSession, implicit: bool, actions: seq<Action>, i: nat, k: nat,
                         b: nat, j: nat)
    requires i < k < b < j <= |Log(cfg, server, implicit, actions)|
    requires var log := Log(cfg, server, implicit, actions);
             && log[k].OperationBegan?
             && forall n | i < n < j :: !IsOver(log[n])
    ensures !Log(cfg, server, implicit, actions)[b].OperationBegan?
  {
    var log := Log(cfg, server, implicit, actions);
    var m := Accepted(cfg, server, implicit, actions, b);
    OperationIsRemembered(cfg, server, log[..b]);
    forall n | k < n < b ensures !IsOver(log[..b][n]) { assert log[..b][n] == log[n]; }
    assert SinceAt(log[..b], IsBegan, IsOver, k);
  }

  lemma {:induction false} LsidIsFixed(cfg: Config, m: Monitor, log: seq<Event>)
    ensures ObserveAll(cfg, m, log).lsid == m.lsid
    decreases |log|
  {
    if log != [] { LsidIsFixed(cfg, Observe(cfg, m, log[0]), log[1..]); }
  }

  /** Inside a transaction an operation sends a second command only after a reauthentication or an
      overload retry. */
  lemma SecondCommandNeedsExcuse(cfg: Config, server: ServerSession, implicit: bool, actions: seq<Action>, j: nat)
    requires j < |Log(cfg, server, implicit, actions)| && Log(cfg, server, implicit, actions)[j].CommandBuilt?
    ensures var log := Log(cfg, server, implicit, actions);
            && log[j].command.lsid.Some?
            && Since(log[..j], IsStart, EndsTransaction)
            ==> !Since(log[..j], IsCommand, Excuses)
  {
    var m := Accepted(cfg, server, implicit, actions, j);
    var log := Log(cfg, server, implicit, actions);
    StateIsRemembered(cfg, server, log[..j]);
    NumbersAreRemembered(cfg, server, log[..j]);
  }

  /** The transaction number of every command that names the session: inside or after a transaction
      the number that transaction was started with; otherwise the number its own operation was
      given, on every attempt the same one, and none if it was given none. */
  lemma TransactionNumbers(cfg: Config, server: ServerSession, implicit: bool, actions: seq<Action>, j: nat, n: int)
    requires j < |Log(cfg, server, implicit, actions)| && Log(cfg, server, implicit, actions)[j].CommandBuilt?
    ensures var log := Log(cfg, server, implicit, actions);
            var c := log[j].command;
            c.lsid.Some? ==>
              if Since(log[..j], IsStart, IsReset)
              then c.txnNumber.Some? && Since(log[..j], StartsWith(c.txnNumber.value), IsStart)
              else c.txnNumber == Some(n) <==> Since(log[..j], Numbers(n), IsBegan)
  {
    var m := Accepted(cfg, server, implicit, actions, j);
    var log := Log(cfg, server, implicit, actions);
    StateIsRemembered(cfg, server, log[..j]);
    NumbersAreRemembered(cfg, server, log[..j]);
  }

  /** Numbers only grow: a transaction or a retryable write gets a number above every number any
      earlier transaction or write was given. One operation is given at most one. */
  lemma NumbersGrow(cfg: Config, server: ServerSession, implicit: bool, actions: seq<Action>, i: nat, j: nat)
    requires i < j < |Log(cfg, server, implicit, actions)|
    ensures var log := Log(cfg, server, implicit, actions);
            && (HandsOut(log[i]) && HandsOut(log[j]) ==> log[i].number < log[j].number)
            && (log[j].WriteNumbered? ==> forall n :: !Since(log[..j], Numbers(n), IsBegan))
  {
    var m := Accepted(cfg, server, implicit, actions, j);
    var log := Log(cfg, server, implicit, actions);
    NumbersAreRemembered(cfg, server, log[..j]);
    HighestIsHighest(cfg, server, log[..j], i);
  }

  lemma {:induction false} HighestIsHighest(cfg: Config, server: ServerSession, log: seq<Event>, i: nat)
    requires AcceptAll(cfg, Fresh(server), log) && i < |log|
    ensures HandsOut(log[i]) ==> log[i].number <= ObserveAll(cfg, Fresh(server), log).highest
    decreases |log|
  {
    var before, e := log[..|log|-1], log[|log|-1];
    assert log == before + [e];
    Snoc(cfg, Fresh(server), before, e);
    if i < |before| { HighestIsHighest(cfg, server, before, i); }
  }

  /** A command sent to a mongos after its transaction was committed or aborted carries the recovery
      token of the last ok mongos reply inside that transaction, if that reply had one; any other
      command carries none. */
  lemma RecoveryTokens(cfg: Config, server: ServerSession, implicit: bool, actions: seq<Action>, j: nat, t: Token)
    requires j < |Log(cfg, server, implicit, actions)| && Log(cfg, server, implicit, actions)[j].CommandBuilt?
    ensures var log := Log(cfg, server, implicit, actions);
            var c := log[j].command;
            c.recoveryToken == Some(t) <==>
              && c.lsid.Some? && c.conn.isMongos
              && Since(log[..j], IsStart, IsReset) && !Since(log[..j], IsStart, EndsTransaction)
              && Since(log[..j], Tokens(t), ReplacesToken)
  {
    var m := Accepted(cfg, server, implicit, actions, j);
    var log := Log(cfg, server, implicit, actions);
    StateIsRemembered(cfg, server, log[..j]);
    ServersAreRemembered(cfg, server, log[..j]);
  }

  /** Once a command opened the transaction on a mongos, every command goes to that mongos until the
      pin is lost: by an error that unpins, an abort, a reset, or the start of the next transaction. */
  lemma SameMongos(cfg: Config, server: ServerSession, implicit: bool, actions: seq<Action>, j: nat, x: Address)
    requires !cfg.loadBalanced
    requires j < |Log(cfg, server, implicit, actions)| && Log(cfg, server, implicit, actions)[j].CommandBuilt?
    requires Since(Log(cfg, server, implicit, actions)[..j], OpensOn(x), Unpinning)
    ensures Log(cfg, server, implicit, actions)[j].command.conn.address == x
  {
    var m := Accepted(cfg, server, implicit, actions, j);
    ServersAreRemembered(cfg, server, Log(cfg, server, implicit, actions)[..j]);
  }

  /** Every command carries a cluster time at least as late as each one the session had processed. */
  lemma ClusterTimesAreGossiped(cfg: Config, server: ServerSession, implicit: bool, actions: seq<Action>, i: nat,
                                j: nat)
    requires i < j < |Log(cfg, server, implicit, actions)|
    ensures var log := Log(cfg, server, implicit, actions);
            log[i].TimeProcessed? && log[j].CommandBuilt? ==> AtLeast(log[j].command.clusterTime, log[i].clusterTime)
  {
    var m := Accepted(cfg, server, implicit, actions, j);
    var log := Log(cfg, server, implicit, actions);
    TimesAreRemembered(cfg, server, log[..j], i);
  }

  /** After any replies in any order both clocks of the session stand at the latest time processed. */
  lemma ClocksAreMaxima(cfg: Config, server: ServerSession, implicit: bool, actions: seq<Action>)
    ensures var o := Execute(cfg, State(NewSession(server, implicit), Idle), actions);
            var s, log := o.state.session, o.events;
            && (forall i | 0 <= i < |log| && log[i].TimeProcessed? :: AtLeast(s.clusterTime, log[i].clusterTime))
            && (s.clusterTime.Some? ==>
                  exists i :: 0 <= i < |log| && log[i].TimeProcessed? && log[i].clusterTime == s.clusterTime.value)
            && (forall i | 0 <= i < |log| && log[i].OperationTimeProcessed? ::
                  s.operationTime.Some? && !Earlier(s.operationTime.value, log[i].timestamp))
            && (s.operationTime.Some? ==>
                  exists i :: && 0 <= i < |log| && log[i].OperationTimeProcessed?
                              && log[i].timestamp == s.operationTime.value)
  {
    NewSessionsAreMirrored(cfg, server, implicit);
    RunsAreAccepted(cfg, Fresh(server), State(NewSession(server, implicit), Idle), actions);
    var log := Log(cfg, server, implicit, actions);
    TimesWereProcessed(cfg, server, log);
    forall i | 0 <= i < |log| && (log[i].TimeProcessed? || log[i].OperationTimeProcessed?)
      ensures log[i].TimeProcessed? ==> log[i].clusterTime in ObserveAll(cfg, Fresh(server), log).times
      ensures log[i].OperationTimeProcessed? ==> log[i].timestamp in ObserveAll(cfg, Fresh(server), log).operationTimes
    {
      TimesAreRemembered(cfg, server, log, i);
    }
  }

  /** No operation goes back to the top of the retry loop more than one time beyond the larger of
      the two retry limits. */
  lemma RetriesAreBounded(cfg: Config, server: ServerSession, implicit: bool, actions: seq<Action>, j: nat)
    requires j <= |Log(cfg, server, implicit, actions)|
    ensures Retries(Log(cfg, server, implicit, actions)[..j]) <= RetryBound(cfg) + 1
    decreases j
  {
    var log := Log(cfg, server, implicit, actions);
    if j > 0 {
      RetriesAreBounded(cfg, server, implicit, actions, j - 1);
      assert log[..j][..j-1] == log[..j-1];
      var m := Accepted(cfg, server, implicit, actions, j - 1);
      NumbersAreRemembered(cfg, server, log[..j-1]);
    }
  }

  /** Outside transactions a session holds no pin, no options and no recovery token. */
  lemma NoTransactionIsBare(cfg: Config, server: ServerSession, implicit: bool, actions: seq<Action>)
    ensures var s := Execute(cfg, State(NewSession(server, implicit), Idle), actions).state.session;
            s.transaction.state.NoTransaction? ==>
              s.transaction.pinned.None? && s.transaction.options.None? && s.transaction.recoveryToken.None?
  {
    NewSessionsAreMirrored(cfg, server, implicit);
    RunsAreAccepted(cfg, Fresh(server), State(NewSession(server, implicit), Idle), actions);
  }
}
