/** The request/reply protocol on one connection, with streamed replies (driver/src/cmap/conn.rs:133-310),
    and the rule by which the pool takes a connection back (driver/src/cmap/worker.rs:535-550,
    driver/src/cmap/conn/pooled.rs:219-228, 334-353).

    The wire is what the server still owes: it answers whole requests in the order they arrive, each
    with one message or, if that message says that more will come, with several. A message or a request
    of which only a part went through leaves the wire torn.
 */
module Connections {
  import opened Wrappers
  import opened Errors

  /** `index` counts the messages of one request. */
  datatype Message = Message(request: nat, index: nat, more: bool) | Garbage(more: bool)

  datatype Owed = Owed(request: nat, next: nat)

  datatype Wire = Wire(owed: seq<Owed>, torn: bool)

  /** How much of a message went through. */
  datatype Extent = Nothing | Part | Whole

  datatype WriteOutcome = Written | WriteFailed(error: Error, extent: Extent) | WriteDropped(extent: Extent)

  datatype ReadOutcome = Read(more: bool) | ReadFailed(error: Error, extent: Extent) | ReadDropped(extent: Extent)

  datatype State = State(executing: bool, error: Option<Error>, moreToCome: bool, wire: Wire)

  datatype Answer = Reply(message: Message) | Refused | Broken(error: Error) | Abandoned

  const NEW := State(false, None, false, Wire([], false))

  // ---------------------------------------------------------------------
  // The wire
  // ---------------------------------------------------------------------

  function WireAfterWrite(w: Wire, request: nat, extent: Extent): Wire {
    match extent
    case Nothing => w
    case Part => w.(torn := true)
    case Whole => w.(owed := w.owed + [Owed(request, 0)])
  }

  function NextMessage(w: Wire, more: bool): Message {
    if w.torn || w.owed == [] then Garbage(more) else Message(w.owed[0].request, w.owed[0].next, more)
  }

  function WireAfterMessage(w: Wire, more: bool): Wire {
    if w.torn || w.owed == [] then w.(torn := true)
    else if more then w.(owed := [Owed(w.owed[0].request, w.owed[0].next + 1)] + w.owed[1..])
    else w.(owed := w.owed[1..])
  }

  function WireAfterRead(w: Wire, extent: Extent): Wire {
    match extent
    case Nothing => w
    case Part => w.(torn := true)
    case Whole => WireAfterMessage(w, false)
  }

  // ---------------------------------------------------------------------
  // Specification
  // ---------------------------------------------------------------------

  datatype Outcome = Outcome(state: State, answer: Answer)

  /** Reading one message; the flag is set meanwhile. */
  function ReadMessage(s: State, r: ReadOutcome): Outcome {
    match r
    case Read(more) =>
      Outcome(s.(executing := false, moreToCome := more, wire := WireAfterMessage(s.wire, more)),
              Reply(NextMessage(s.wire, more)))
    case ReadFailed(error, extent) =>
      Outcome(s.(executing := false, error := Some(error), wire := WireAfterRead(s.wire, extent)), Broken(error))
    case ReadDropped(extent) =>
      Outcome(s.(executing := true, wire := WireAfterRead(s.wire, extent)), Abandoned)
  }

  function SendMessage(s: State, request: nat, wellFormed: bool, w: WriteOutcome, r: ReadOutcome): Outcome {
    if !wellFormed || s.moreToCome then Outcome(s, Refused)
    else
      match w
      case WriteFailed(error, extent) =>
        Outcome(s.(executing := true, error := Some(error), wire := WireAfterWrite(s.wire, request, extent)),
                Broken(error))
      case WriteDropped(extent) =>
        Outcome(s.(executing := true, wire := WireAfterWrite(s.wire, request, extent)), Abandoned)
      case Written =>
        ReadMessage(s.(executing := true, wire := WireAfterWrite(s.wire, request, Whole)), r)
  }

  /** A cancellation that is there first wins; one that comes later drops the exchange where it is. */
  datatype Cancellation = NoCancel | CancelFirst | CancelLater

  const POOL_CLEARED := Error(ConnectionPoolCleared("interrupted due to server monitor timeout"), {}, None, None)

  function SendWithCancellation(s: State, request: nat, wellFormed: bool, w: WriteOutcome, r: ReadOutcome,
                                c: Cancellation): Outcome {
    var o := SendMessage(s, request, wellFormed, w, r);
    if c.CancelFirst? then Outcome(s.(error := Some(POOL_CLEARED)), Broken(POOL_CLEARED))
    else if c.CancelLater? && o.answer.Abandoned? then
      Outcome(o.state.(error := Some(POOL_CLEARED)), Broken(POOL_CLEARED))
    else o
  }

  function ReceiveMessage(s: State, r: ReadOutcome): Outcome {
    if !s.moreToCome then Outcome(s, Refused) else ReadMessage(s.(executing := true), r)
  }

  /** Moving a connection out of its holder forgets that more was to come. */
  function Take(s: State): State { s.(moreToCome := false) }

  /** What the pool puts back among the available connections. */
  predicate Reusable(s: State) { s.error.None? && !s.executing }

  // ---------------------------------------------------------------------
  // The connection object
  // ---------------------------------------------------------------------

  class Connection {
    var commandExecuting: bool
    var error: Option<Error>
    var moreToCome: bool
    var wire: Wire

    function Value(): State
      reads this
    {
      State(commandExecuting, error, moreToCome, wire)
    }

    constructor ()
      ensures Value() == NEW
    {
      commandExecuting, error, moreToCome, wire := false, None, false, Wire([], false);
    }

    method ReadFrom(r: ReadOutcome) returns (answer: Answer)
      requires commandExecuting
      modifies this
      ensures Outcome(Value(), answer) == ReadMessage(old(Value()), r)
    {
      match r {
        case ReadDropped(extent) =>
          wire := WireAfterRead(wire, extent);
          return Abandoned;
        case ReadFailed(e, extent) =>
          wire := WireAfterRead(wire, extent);
          commandExecuting := false;
          error := Some(e);
          return Broken(e);
        case Read(more) =>
          var message := NextMessage(wire, more);
          wire := WireAfterMessage(wire, more);
          commandExecuting := false;
          moreToCome := message.more;
          return Reply(message);
      }
    }

    method Send(request: nat, wellFormed: bool, w: WriteOutcome, r: ReadOutcome) returns (answer: Answer)
      modifies this
      ensures Outcome(Value(), answer) == SendMessage(old(Value()), request, wellFormed, w, r)
    {
      if !wellFormed || moreToCome {
        return Refused;
      }
      commandExecuting := true;
      match w {
        case WriteDropped(extent) =>
          wire := WireAfterWrite(wire, request, extent);
          return Abandoned;
        case WriteFailed(e, extent) =>
          wire := WireAfterWrite(wire, request, extent);
          error := Some(e);
          return Broken(e);
        case Written =>
          wire := WireAfterWrite(wire, request, Whole);
          answer := ReadFrom(r);
      }
    }

    method SendCancellable(request: nat, wellFormed: bool, w: WriteOutcome, r: ReadOutcome, c: Cancellation)
      returns (answer: Answer)
      modifies this
      ensures Outcome(Value(), answer) == SendWithCancellation(old(Value()), request, wellFormed, w, r, c)
    {
      if c.CancelFirst? {
        error := Some(POOL_CLEARED);
        return Broken(POOL_CLEARED);
      }
      answer := Send(request, wellFormed, w, r);
      if c.CancelLater? && answer.Abandoned? {
        error := Some(POOL_CLEARED);
        answer := Broken(POOL_CLEARED);
      }
    }

    method Receive(r: ReadOutcome) returns (answer: Answer)
      modifies this
      ensures Outcome(Value(), answer) == ReceiveMessage(old(Value()), r)
    {
      if !moreToCome {
        return Refused;
      }
      commandExecuting := true;
      answer := ReadFrom(r);
    }
  }

  // ---------------------------------------------------------------------
  // Runs
  // ---------------------------------------------------------------------

  datatype Call =
    | Send(wellFormed: bool, write: WriteOutcome, read: ReadOutcome, cancellation: Cancellation)
    | Receive(read: ReadOutcome)
    | HandOver

  /** Request numbers are those of the calls that made them. */
  function Step(s: State, n: nat, c: Call): Outcome {
    match c
    case Send(wellFormed, w, r, cancellation) => SendWithCancellation(s, n, wellFormed, w, r, cancellation)
    case Receive(r) => ReceiveMessage(s, r)
    case HandOver => Outcome(Take(s), Refused)
  }

  function Run(calls: seq<Call>): State {
    if calls == [] then NEW else Step(Run(calls[..|calls| - 1]), |calls| - 1, calls[|calls| - 1]).state
  }

  /** A connection is used only while it is fit for reuse, and never handed over in the middle of a stream. */
  predicate Disciplined(calls: seq<Call>)
    decreases |calls|
  {
    calls != [] ==>
      var s := Run(calls[..|calls| - 1]);
      && Disciplined(calls[..|calls| - 1])
      && Reusable(s)
      && (calls[|calls| - 1].HandOver? ==> !s.moreToCome)
  }

  /** Nothing is under way: the next message will be the reply to the next request. */
  predicate Quiet(w: Wire) { w.owed == [] && !w.torn }

  /** The server is in the middle of answering one request. */
  predicate Streaming(w: Wire) { |w.owed| == 1 && w.owed[0].next > 0 && !w.torn }

  /** The flags tell the truth about the wire. */
  predicate Truthful(s: State) { Reusable(s) ==> if s.moreToCome then Streaming(s.wire) else Quiet(s.wire) }

  lemma StepStaysTruthful(s: State, n: nat, c: Call)
    requires Truthful(s) && Reusable(s) && (c.HandOver? ==> !s.moreToCome)
    ensures Truthful(Step(s, n, c).state)
  {
  }

  lemma {:induction false} RunsAreTruthful(calls: seq<Call>)
    requires Disciplined(calls)
    ensures Truthful(Run(calls))
    decreases |calls|
  {
    if calls != [] {
      RunsAreTruthful(calls[..|calls| - 1]);
      StepStaysTruthful(Run(calls[..|calls| - 1]), |calls| - 1, calls[|calls| - 1]);
    }
  }

  lemma StepAnswersRightly(s: State, n: nat, c: Call)
    requires Truthful(s) && Reusable(s)
    ensures var o := Step(s, n, c);
            && (c.Send? && o.answer.Reply? ==> o.answer.message == Message(n, 0, o.state.moreToCome))
            && (c.Receive? && o.answer.Reply? ==>
                  && s.wire.owed != []
                  && o.answer.message == Message(s.wire.owed[0].request, s.wire.owed[0].next, o.state.moreToCome))
            && (c.Send? && s.moreToCome ==> o.state.wire == s.wire)
            && (c.Send? && o.state.wire != s.wire ==> Quiet(s.wire))
  {
  }

  /** In every disciplined run: what a send returns is the first message for its own request; what a
      receive returns is the next message of the request that is being answered; and no request is
      written while a stream is open. */
  lemma RepliesMatchRequests(calls: seq<Call>)
    requires Disciplined(calls) && calls != []
    ensures var n := |calls| - 1;
            var s, o := Run(calls[..n]), Step(Run(calls[..n]), n, calls[n]);
            && (calls[n].Send? && o.answer.Reply? ==> o.answer.message == Message(n, 0, o.state.moreToCome))
            && (calls[n].Receive? && o.answer.Reply? ==>
                  && s.wire.owed != []
                  && o.answer.message == Message(s.wire.owed[0].request, s.wire.owed[0].next, o.state.moreToCome))
            && (calls[n].Send? && s.moreToCome ==> o.state.wire == s.wire)
            && (calls[n].Send? && o.state.wire != s.wire ==> Quiet(s.wire))
  {
    var n := |calls| - 1;
    RunsAreTruthful(calls[..n]);
    StepAnswersRightly(Run(calls[..n]), n, calls[n]);
  }

  /** An exchange goes well: a request can be made, is written and answered, and is not cancelled first; or a stream
      is open and its next message is read. */
  predicate GoesWell(s: State, c: Call) {
    match c
    case Send(wellFormed, write, read, cancellation) =>
      !cancellation.CancelFirst? && wellFormed && !s.moreToCome && write.Written? && read.Read?
    case Receive(read) => s.moreToCome && read.Read?
    case HandOver => false
  }

  /** The call is turned down: the request is malformed or a stream is open, or there is no stream to read from. */
  predicate TurnedDown(s: State, c: Call) {
    match c
    case Send(wellFormed, _, _, cancellation) => !cancellation.CancelFirst? && (!wellFormed || s.moreToCome)
    case Receive(_) => !s.moreToCome
    case HandOver => false
  }

  /** A call that goes well returns its message, and the connection is fit for the next call; one that is turned
      down changes nothing; any other leaves the connection unfit, so that the pool does not take it back. */
  predicate EndsIn(s: State, n: nat, c: Call, o: Outcome) {
    if GoesWell(s, c) then
      && (c.Receive? ==> s.wire.owed != [])
      && o.answer == Reply(if c.Send? then Message(n, 0, c.read.more)
                           else Message(s.wire.owed[0].request, s.wire.owed[0].next, c.read.more))
      && Reusable(o.state) && o.state.moreToCome == c.read.more
    else if TurnedDown(s, c) then o == Outcome(s, Refused)
    else (o.answer.Broken? || o.answer.Abandoned?) && !Reusable(o.state)
  }

  lemma SendEndsIn(s: State, n: nat, c: Call)
    requires Truthful(s) && Reusable(s) && c.Send?
    ensures EndsIn(s, n, c, Step(s, n, c))
  {
  }

  lemma ReceiveEndsIn(s: State, n: nat, c: Call)
    requires Truthful(s) && Reusable(s) && c.Receive?
    ensures EndsIn(s, n, c, Step(s, n, c))
  {
  }

  /** So it is with every call of a disciplined run. */
  lemma CallsEndIn(calls: seq<Call>)
    requires Disciplined(calls) && calls != [] && !calls[|calls| - 1].HandOver?
    ensures var n := |calls| - 1; EndsIn(Run(calls[..n]), n, calls[n], Step(Run(calls[..n]), n, calls[n]))
  {
    var n := |calls| - 1;
    RunsAreTruthful(calls[..n]);
    if calls[n].Send? {
      SendEndsIn(Run(calls[..n]), n, calls[n]);
    } else {
      ReceiveEndsIn(Run(calls[..n]), n, calls[n]);
    }
  }

  /** All messages read in a run, in order. */
  function Log(calls: seq<Call>): seq<Message> {
    if calls == [] then []
    else
      var n := |calls| - 1;
      var o := Step(Run(calls[..n]), n, calls[n]);
      Log(calls[..n]) + (if o.answer.Reply? then [o.answer.message] else [])
  }

  /** The message begins a new answer or continues the one before it. */
  predicate Follows(log: seq<Message>, i: nat)
    requires i < |log|
  {
    && log[i].Message?
    && (log[i].index > 0 ==> i > 0 && log[i - 1] == Message(log[i].request, log[i].index - 1, true))
  }

  predicate Chained(log: seq<Message>) { forall i | 0 <= i < |log| :: Follows(log, i) }

  /** The open stream, if there is one, is the one the last message belongs to. */
  predicate LastIsOpen(s: State, log: seq<Message>) {
    Reusable(s) && s.moreToCome ==>
      && Streaming(s.wire) && log != []
      && log[|log| - 1] == Message(s.wire.owed[0].request, s.wire.owed[0].next - 1, true)
  }

  /** A disciplined run reads whole answers: every message begins an answer or continues the one before. */
  lemma {:induction false} MessagesAreChained(calls: seq<Call>)
    requires Disciplined(calls)
    ensures Chained(Log(calls)) && LastIsOpen(Run(calls), Log(calls))
    decreases |calls|
  {
    if calls != [] {
      var n := |calls| - 1;
      MessagesAreChained(calls[..n]);
      RunsAreTruthful(calls[..n]);
      OneMoreIsChained(Run(calls[..n]), n, calls[n], Log(calls[..n]));
    }
  }

  lemma OneMoreIsChained(s: State, n: nat, c: Call, log: seq<Message>)
    requires Truthful(s) && Reusable(s) && (c.HandOver? ==> !s.moreToCome)
    requires Chained(log) && LastIsOpen(s, log)
    ensures var o := Step(s, n, c);
            var log' := log + (if o.answer.Reply? then [o.answer.message] else []);
            Chained(log') && LastIsOpen(o.state, log')
  {
    var o := Step(s, n, c);
    var log' := log + (if o.answer.Reply? then [o.answer.message] else []);
    StepAnswersRightly(s, n, c);
    if o.answer.Reply? {
      SnocIsChained(log, o.answer.message);
    } else {
      assert log' == log;
    }
  }

  lemma SnocIsChained(log: seq<Message>, next: Message)
    requires Chained(log) && next.Message?
    requires next.index > 0 ==> log != [] && log[|log| - 1] == Message(next.request, next.index - 1, true)
    ensures Chained(log + [next])
  {
    var log' := log + [next];
    forall i | 0 <= i < |log'|
      ensures Follows(log', i)
    {
      if i < |log| {
        assert Follows(log, i);
        assert log'[i] == log[i];
      }
    }
  }

  // ---------------------------------------------------------------------
  // What the discipline is for
  // ---------------------------------------------------------------------

  /** A reply is the right one exactly when the wire was quiet before the request was written. */
  lemma ReplyIsRightExactlyWhen(s: State, n: nat, more: bool)
    requires !s.moreToCome && forall o | o in s.wire.owed :: o.request < n
    ensures SendMessage(s, n, true, Written, Read(more)).answer == Reply(Message(n, 0, more)) <==> Quiet(s.wire)
  {
    if s.wire.owed != [] {
      assert s.wire.owed[0] in s.wire.owed;
    }
  }

  /** Handing over keeps the flags true exactly when no stream is open. */
  lemma HandOverIsSafeExactlyWhen(s: State)
    requires Truthful(s)
    ensures Truthful(Take(s)) <==> !(Reusable(s) && s.moreToCome)
  {
  }

  /** A connection that is used while a command is executing answers with the old reply. */
  lemma ReuseWhileExecutingMixesReplies()
    ensures var s := SendMessage(NEW, 0, true, Written, ReadDropped(Nothing)).state;
            && !Reusable(s)
            && SendMessage(s, 1, true, Written, Read(false)).answer == Reply(Message(0, 0, false))
  {
  }

  /** So does one that goes back to the pool in the middle of a stream, although the pool accepts it. */
  lemma HandOverMidStreamMixesReplies()
    ensures var s := Take(SendMessage(NEW, 0, true, Written, Read(true)).state);
            && Reusable(s)
            && SendMessage(s, 1, true, Written, Read(false)).answer == Reply(Message(0, 1, false))
  {
  }
}
