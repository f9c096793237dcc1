/** Client sessions: the pooled server session, the transaction record and the two logical clocks
    (driver/src/client/session.rs). `Session` is the value of a session at one moment; the class
    `ClientSession` updates the same fields in place, and each of its methods is tied to a
    function on values.
 */
module Sessions {
  import opened Wrappers

  type Lsid = nat
  type Address = nat
  type ConnectionId = nat
  type Token = nat

  // ---------------------------------------------------------------------
  // Logical time
  // ---------------------------------------------------------------------

  datatype Timestamp = Timestamp(time: nat, increment: nat)

  predicate Earlier(a: Timestamp, b: Timestamp) {
    a.time < b.time || (a.time == b.time && a.increment < b.increment)
  }

  /** Cluster times compare by their timestamp; the signature takes no part. */
  datatype ClusterTime = ClusterTime(time: Timestamp, signature: nat)

  /** `t` is at least as late as `u`, where no time at all is the earliest. */
  predicate AtLeast(t: Option<ClusterTime>, u: ClusterTime) {
    t.Some? && !Earlier(t.value.time, u.time)
  }

  /** `std::cmp::max` on optional cluster times: the second argument wins a tie. */
  function LaterOf(a: Option<ClusterTime>, b: Option<ClusterTime>): Option<ClusterTime> {
    if b.None? then a
    else if a.None? then b
    else if Earlier(b.value.time, a.value.time) then a
    else b
  }

  // ---------------------------------------------------------------------
  // Session values
  // ---------------------------------------------------------------------

  datatype TransactionState = NoTransaction | Starting | InProgress | Committed(dataCommitted: bool) | Aborted

  datatype TransactionPin = Mongos(address: Address) | Connection(connection: ConnectionId)

  datatype TransactionOptions = TransactionOptions(readConcern: Option<nat>, writeConcern: Option<nat>)

  datatype Transaction = Transaction(
    state: TransactionState,
    options: Option<TransactionOptions>,
    pinned: Option<TransactionPin>,
    recoveryToken: Option<Token>)

  const NO_TRANSACTION := Transaction(NoTransaction, None, None, None)

  datatype ServerSession = ServerSession(id: Lsid, dirty: bool, txnNumber: int)

  datatype Session = Session(
    server: ServerSession,
    transaction: Transaction,
    clusterTime: Option<ClusterTime>,
    operationTime: Option<Timestamp>,
    snapshotTime: Option<Timestamp>,
    implicit: bool)

  datatype Retryability = WriteRetryable | ReadRetryable | NotRetryable

  predicate InTransaction(s: Session) {
    s.transaction.state.Starting? || s.transaction.state.InProgress?
  }

  function NewSession(server: ServerSession, implicit: bool): Session {
    Session(server, NO_TRANSACTION, None, None, None, implicit)
  }

  function Started(t: Transaction, options: Option<TransactionOptions>): Transaction {
    t.(state := Starting, options := options, recoveryToken := None)
  }

  function CommittedAs(t: Transaction, dataCommitted: bool): Transaction {
    t.(state := Committed(dataCommitted))
  }

  function AbortedFrom(t: Transaction): Transaction {
    t.(state := Aborted, options := None, pinned := None)
  }

  function WithClusterTime(s: Session, to: ClusterTime): Session {
    if s.clusterTime.None? || Earlier(s.clusterTime.value.time, to.time) then s.(clusterTime := Some(to)) else s
  }

  function WithOperationTime(s: Session, ts: Timestamp): Session {
    if s.operationTime.None? || Earlier(s.operationTime.value, ts) then s.(operationTime := Some(ts)) else s
  }

  function IncrementTxnNumber(s: Session): Session {
    s.(server := s.server.(txnNumber := s.server.txnNumber + 1))
  }

  predicate AllocatesNumber(s: Session, retryability: Retryability) {
    s.transaction.state.NoTransaction? && retryability.WriteRetryable?
  }

  function AfterTxnNumber(s: Session, retryability: Retryability): Session {
    if AllocatesNumber(s, retryability) then IncrementTxnNumber(s) else s
  }

  /** The number an operation sends: the transaction's, a fresh one for a retryable write outside
      any transaction, none otherwise. */
  function TxnNumberFor(s: Session, retryability: Retryability): Option<int> {
    if s.transaction.state.NoTransaction? && !retryability.WriteRetryable? then None
    else Some(AfterTxnNumber(s, retryability).server.txnNumber)
  }

  function WithPin(s: Session, pin: Option<TransactionPin>): Session {
    s.(transaction := s.transaction.(pinned := pin))
  }

  function WithState(s: Session, state: TransactionState): Session {
    s.(transaction := s.transaction.(state := state))
  }

  function ToInProgress(s: Session): Session {
    if s.transaction.state.Starting? then WithState(s, InProgress) else s
  }

  // ---------------------------------------------------------------------
  // The session object
  // ---------------------------------------------------------------------

  class ClientSession {
    var server: ServerSession
    var transaction: Transaction
    var clusterTime: Option<ClusterTime>
    var operationTime: Option<Timestamp>
    var snapshotTime: Option<Timestamp>
    const implicit: bool

    function Value(): Session
      reads this
    {
      Session(server, transaction, clusterTime, operationTime, snapshotTime, implicit)
    }

    constructor (server: ServerSession, implicit: bool)
      ensures Value() == NewSession(server, implicit)
    {
      this.server := server;
      this.implicit := implicit;
      transaction := NO_TRANSACTION;
      clusterTime, operationTime, snapshotTime := None, None, None;
    }

    method AdvanceClusterTime(to: ClusterTime)
      modifies this
      ensures Value() == WithClusterTime(old(Value()), to)
    {
      if clusterTime.None? || Earlier(clusterTime.value.time, to.time) {
        clusterTime := Some(to);
      }
    }

    method AdvanceOperationTime(ts: Timestamp)
      modifies this
      ensures Value() == WithOperationTime(old(Value()), ts)
    {
      match operationTime
      case Some(current) => if Earlier(current, ts) { operationTime := Some(ts); }
      case None => operationTime := Some(ts);
    }

    method GetTxnNumberForOperation(retryability: Retryability) returns (number: Option<int>)
      modifies this
      ensures number == TxnNumberFor(old(Value()), retryability)
      ensures Value() == AfterTxnNumber(old(Value()), retryability)
    {
      if !transaction.state.NoTransaction? {
        number := Some(server.txnNumber);
      } else if retryability.WriteRetryable? {
        server := server.(txnNumber := server.txnNumber + 1);
        number := Some(server.txnNumber);
      } else {
        number := None;
      }
    }

    method MarkDirty()
      modifies this
      ensures Value() == old(Value()).(server := old(server).(dirty := true))
    {
      server := server.(dirty := true);
    }

    method Pin(pin: TransactionPin)
      modifies this
      ensures Value() == WithPin(old(Value()), Some(pin))
    {
      transaction := transaction.(pinned := Some(pin));
    }

    method Unpin()
      modifies this
      ensures Value() == WithPin(old(Value()), None)
    {
      transaction := transaction.(pinned := None);
    }

    method SetRecoveryToken(token: Option<Token>)
      modifies this
      ensures Value() == old(Value()).(transaction := old(transaction).(recoveryToken := token))
    {
      transaction := transaction.(recoveryToken := token);
    }

    method SetSnapshotTime(ts: Timestamp)
      modifies this
      ensures Value() == old(Value()).(snapshotTime := Some(ts))
    {
      snapshotTime := Some(ts);
    }

    method MarkInProgress()
      modifies this
      ensures Value() == ToInProgress(old(Value()))
    {
      if transaction.state.Starting? {
        transaction := transaction.(state := InProgress);
      }
    }

    method ResetTransaction()
      modifies this
      ensures Value() == old(Value()).(transaction := NO_TRANSACTION)
    {
      transaction := NO_TRANSACTION;
    }
  }
}
